/**
 The event bus (internal/lifecycle/events.go) and the stream the control plane serves from it (handleEvents,
 internal/controlplane/server.go): a client that reconnects with the last identifier it saw misses nothing and sees
 nothing twice, or is told that its cursor is gone.
 */
module EventBus {
  import opened Prelude

  /** Identifiers, owners and agents; 0 is the empty string. */
  datatype Event = Event(id: nat, owner: nat, agent: nat)

  const QUEUE := 64

  /** A subscriber channel. It is closed when it was full, or cancelled; what is buffered can still be read. */
  datatype Channel = Channel(queue: seq<Event>, open: bool)

  datatype Bus = Bus(capacity: nat, events: seq<Event>, channels: map<nat, Channel>)

  // ---------- the operations ----------

  function Last(s: seq<Event>, n: nat): seq<Event> { if |s| > n then s[|s| - n..] else s }

  function Offer(c: Channel, e: Event): Channel {
    if !c.open then c else if |c.queue| < QUEUE then c.(queue := c.queue + [e]) else c.(open := false)
  }

  function Publish(b: Bus, e: Event): Bus {
    Bus(b.capacity, Last(b.events + [e], b.capacity), map k | k in b.channels :: Offer(b.channels[k], e))
  }

  function Owned(s: seq<Event>, owner: nat): seq<Event> {
    if s == [] then []
    else Owned(s[..|s| - 1], owner) + if s[|s| - 1].owner == owner then [s[|s| - 1]] else []
  }

  /** Where the first event of that identifier is; the length when there is none. */
  function Find(s: seq<Event>, id: nat): (k: nat)
    ensures k <= |s| && (k < |s| <==> exists i :: 0 <= i < |s| && s[i].id == id)
    ensures k < |s| ==> s[k].id == id && forall i :: 0 <= i < k ==> s[i].id != id
  {
    if s == [] then 0
    else if s[0].id == id then 0
    else
      var k := Find(s[1..], id);
      assert forall i :: 0 < i < |s| ==> s[i] == s[1..][i - 1];
      1 + k
  }

  /** The replay for a cursor, or nothing when the cursor is not retained. */
  function Replay(b: Bus, owner: nat, after: nat): Option<seq<Event>> {
    if after == 0 then Some(Owned(b.events, owner))
    else
      var k := Find(b.events, after);
      if k < |b.events| then Some(Owned(b.events[k + 1..], owner)) else None
  }

  function Subscribe(b: Bus, owner: nat, after: nat, channel: nat): Bus {
    if Replay(b, owner, after).None? then b else b.(channels := b.channels[channel := Channel([], true)])
  }

  function Cancel(b: Bus, channel: nat): Bus {
    if channel in b.channels && b.channels[channel].open
    then b.(channels := b.channels[channel := b.channels[channel].(open := false)])
    else b
  }

  // ---------- filters ----------

  /** What one stream asks for: an owner and possibly one agent. */
  datatype Wanted = Wanted(owner: nat, agent: nat)

  predicate Wants(f: Wanted, e: Event) { e.owner == f.owner && (f.agent == 0 || e.agent == f.agent) }

  function Kept(s: seq<Event>, f: Wanted): seq<Event> {
    if s == [] then []
    else Kept(s[..|s| - 1], f) + if Wants(f, s[|s| - 1]) then [s[|s| - 1]] else []
  }

  lemma {:induction false} KeptConcat(s: seq<Event>, t: seq<Event>, f: Wanted)
    ensures Kept(s + t, f) == Kept(s, f) + Kept(t, f)
  {
    if t == [] {
      assert s + t == s;
    } else {
      KeptConcat(s, t[..|t| - 1], f);
      assert (s + t)[..|s + t| - 1] == s + t[..|t| - 1];
    }
  }

  lemma KeptOne(e: Event, f: Wanted)
    ensures Kept([e], f) == if Wants(f, e) then [e] else []
  {
    assert Kept([], f) == [];
  }

  /** Filtering by owner first loses nothing. */
  lemma {:induction false} KeptOwned(s: seq<Event>, f: Wanted)
    ensures Kept(Owned(s, f.owner), f) == Kept(s, f)
  {
    if s == [] {
    } else {
      KeptOwned(s[..|s| - 1], f);
      var e := s[|s| - 1];
      KeptConcat(Owned(s[..|s| - 1], f.owner), if e.owner == f.owner then [e] else [], f);
      KeptOne(e, f);
    }
  }

  lemma {:induction false} KeptFrom(s: seq<Event>, f: Wanted)
    ensures forall e :: e in Kept(s, f) <==> e in s && Wants(f, e)
  {
    if s == [] {
    } else {
      KeptFrom(s[..|s| - 1], f);
      assert s == s[..|s| - 1] + [s[|s| - 1]];
    }
  }

  /** A filter by agent narrows the stream of the owner to exactly the events of that agent, in order. */
  lemma {:induction false} AgentNarrows(s: seq<Event>, owner: nat, agent: nat)
    requires agent != 0
    ensures Kept(Kept(s, Wanted(owner, 0)), Wanted(owner, agent)) == Kept(s, Wanted(owner, agent))
    ensures forall e :: e in Kept(s, Wanted(owner, agent)) <==> e in s && e.owner == owner && e.agent == agent
    ensures forall e :: e in Kept(s, Wanted(owner, 0)) <==> e in s && e.owner == owner
  {
    KeptFrom(s, Wanted(owner, agent));
    KeptFrom(s, Wanted(owner, 0));
    if s == [] {
    } else {
      var init, e := s[..|s| - 1], s[|s| - 1];
      AgentNarrows(init, owner, agent);
      KeptConcat(Kept(init, Wanted(owner, 0)), if e.owner == owner then [e] else [], Wanted(owner, agent));
      KeptOne(e, Wanted(owner, agent));
      assert Kept([], Wanted(owner, agent)) == [];
    }
  }

  // ---------- who gets what ----------

  /** Publishing keeps the newest `capacity` events. Every registered channel with room gets the event and stays; a full one
      is closed with what it holds; a closed one gets nothing. */
  lemma PublishReaches(b: Bus, e: Event, k: nat)
    requires k in b.channels
    ensures
      var b', c := Publish(b, e), b.channels[k];
      && b'.channels.Keys == b.channels.Keys
      && b'.channels[k] ==
         (if c.open && |c.queue| < 64 then Channel(c.queue + [e], true) else Channel(c.queue, false))
      && |b'.events| == (if |b.events| + 1 > b.capacity then b.capacity else |b.events| + 1)
      && b'.events == (b.events + [e])[|b.events| + 1 - |b'.events|..]
  {
  }

  /** A subscription registers one empty channel exactly when its cursor is empty or retained, and touches no other. Cancelling
      closes that channel, once, with what it holds. */
  lemma SubscribeExactly(b: Bus, owner: nat, after: nat, channel: nat)
    requires channel !in b.channels
    ensures
      var b' := Subscribe(b, owner, after, channel);
      var granted := after == 0 || exists i :: 0 <= i < |b.events| && b.events[i].id == after;
      && (Replay(b, owner, after).Some? <==> granted)
      && (granted ==> b' == b.(channels := b.channels[channel := Channel([], true)]))
      && (!granted ==> b' == b)
      && (granted ==> Cancel(b', channel) == b.(channels := b.channels[channel := Channel([], false)]))
      && Cancel(Cancel(b', channel), channel) == Cancel(b', channel)
  {
    hide Owned;
  }

  // ---------- the world ----------

  /** An open stream: the part of the replay not yet written, and what is written but not yet received. */
  datatype Stream = Stream(channel: nat, replay: seq<Event>, wire: seq<Event>)

  /** The client keeps the identifiers of what it received. */
  datatype Client = Client(wanted: Wanted, received: seq<Event>, stream: Option<Stream>)

  /** `history` is everything ever published; `start` is where the client began and `upto` how far its channel got. */
  datatype World = World(bus: Bus, history: seq<Event>, client: Client, start: nat, upto: nat)

  datatype Step =
    | Published(event: Event)
    | Connect(channel: nat)
    | Write
    | Receive
    | Break
    | OtherSubscribes(owner: nat, after: nat, channel: nat)
    | OtherTakes(channel: nat)
    | OtherCancels(channel: nat)

  /** Last-Event-ID: what was received last. */
  function LastSeen(c: Client): nat { if c.received == [] then 0 else c.received[|c.received| - 1].id }

  predicate Mine(w: World, channel: nat) { w.client.stream.Some? && w.client.stream.value.channel == channel }

  ghost predicate Unused(w: World, id: nat) { id != 0 && forall i :: 0 <= i < |w.history| ==> w.history[i].id != id }

  function DoPublish(w: World, e: Event): World {
    var b := Publish(w.bus, e);
    var history := w.history + [e];
    var live := w.client.stream.Some? && w.client.stream.value.channel in b.channels &&
                b.channels[w.client.stream.value.channel].open;
    World(b, history, w.client, w.start, if live then |history| else w.upto)
  }

  function DoConnect(w: World, channel: nat): World {
    var after := LastSeen(w.client);
    var replay := Replay(w.bus, w.client.wanted.owner, after);
    if replay.None? then w
    else
      World(Subscribe(w.bus, w.client.wanted.owner, after, channel), w.history,
            w.client.(stream := Some(Stream(channel, replay.value, []))),
            if after == 0 then if |w.bus.events| <= |w.history| then |w.history| - |w.bus.events| else 0 else w.start,
            |w.history|)
  }

  /** handleEvents: the replay first, then the channel, each through the filter. */
  function DoWrite(w: World): Option<World>
    requires w.client.stream.Some? && w.client.stream.value.channel in w.bus.channels
  {
    var st := w.client.stream.value;
    var queue := w.bus.channels[st.channel].queue;
    if st.replay != [] then
      Some(w.(client := w.client.(stream := Some(Stream(st.channel, st.replay[1..], st.wire + Kept(st.replay[..1], w.client.wanted))))))
    else if queue != [] then
      Some(w.(bus := w.bus.(channels := w.bus.channels[st.channel := w.bus.channels[st.channel].(queue := queue[1..])]),
              client := w.client.(stream := Some(st.(wire := st.wire + Kept(queue[..1], w.client.wanted))))))
    else None
  }

  function DoReceive(w: World): Option<World>
    requires w.client.stream.Some?
  {
    var st := w.client.stream.value;
    if st.wire == [] then None
    else Some(w.(client := w.client.(received := w.client.received + [st.wire[0]], stream := Some(st.(wire := st.wire[1..])))))
  }

  /** The connection ends at any moment; what was on the wire is lost. */
  function DoBreak(w: World): World
    requires w.client.stream.Some?
  {
    w.(bus := Cancel(w.bus, w.client.stream.value.channel), client := w.client.(stream := None))
  }

  ghost function Next(w: World, s: Step): Option<World> {
    match s
    case Published(e) => if Unused(w, e.id) then Some(DoPublish(w, e)) else None
    case Connect(ch) => if w.client.stream.None? && ch !in w.bus.channels then Some(DoConnect(w, ch)) else None
    case Write => if w.client.stream.Some? && w.client.stream.value.channel in w.bus.channels then DoWrite(w) else None
    case Receive => if w.client.stream.Some? then DoReceive(w) else None
    case Break => if w.client.stream.Some? then Some(DoBreak(w)) else None
    case OtherSubscribes(owner, after, ch) =>
      if ch !in w.bus.channels then Some(w.(bus := Subscribe(w.bus, owner, after, ch))) else None
    case OtherTakes(ch) =>
      if ch in w.bus.channels && !Mine(w, ch) && w.bus.channels[ch].queue != []
      then Some(w.(bus := w.bus.(channels := w.bus.channels[ch := w.bus.channels[ch].(queue := w.bus.channels[ch].queue[1..])])))
      else None
    case OtherCancels(ch) => if !Mine(w, ch) then Some(w.(bus := Cancel(w.bus, ch))) else None
  }

  // ---------- what every step keeps ----------

  /** The bus retains the last `capacity` events; identifiers do not repeat. */
  ghost predicate BusOk(w: World) {
    && w.bus.events == Last(w.history, w.bus.capacity)
    && (forall i :: 0 <= i < |w.history| ==> w.history[i].id != 0)
    && (forall i, j :: 0 <= i < j < |w.history| ==> w.history[i].id != w.history[j].id)
  }

  /** What an open stream has written, is writing and will write, up to the end of its channel. */
  function Coming(w: World): seq<Event>
    requires w.client.stream.Some? && w.client.stream.value.channel in w.bus.channels
  {
    var st := w.client.stream.value;
    st.wire + Kept(st.replay, w.client.wanted) + Kept(w.bus.channels[st.channel].queue, w.client.wanted)
  }

  ghost predicate ClientOk(w: World) {
    && w.start <= w.upto <= |w.history|
    && w.client.received <= Kept(w.history[w.start..], w.client.wanted)
    && (w.client.stream.Some? ==>
          && w.client.stream.value.channel in w.bus.channels
          && (w.bus.channels[w.client.stream.value.channel].open ==> w.upto == |w.history|)
          && w.client.received + Coming(w) == Kept(w.history[w.start..w.upto], w.client.wanted))
  }

  lemma LastGrows(s: seq<Event>, n: nat, e: Event)
    ensures Last(Last(s, n) + [e], n) == Last(s + [e], n)
  {
  }

  lemma PublishBusOk(w: World, e: Event)
    requires BusOk(w) && Unused(w, e.id)
    ensures BusOk(DoPublish(w, e))
  {
    LastGrows(w.history, w.bus.capacity, e);
  }

  lemma KeptGrows(h: seq<Event>, start: nat, e: Event, f: Wanted)
    requires start <= |h|
    ensures Kept((h + [e])[start..], f) == Kept(h[start..], f) + Kept([e], f)
  {
    assert (h + [e])[start..] == h[start..] + [e];
    KeptConcat(h[start..], [e], f);
  }

  lemma PublishClientOk(w: World, e: Event)
    requires ClientOk(w)
    ensures ClientOk(DoPublish(w, e))
  {
    hide Kept, Publish;
    var f := w.client.wanted;
    var w' := DoPublish(w, e);
    PublishOffers(w.bus, e);
    KeptGrows(w.history, w.start, e, f);
    if w.client.stream.Some? {
      var ch := w.client.stream.value.channel;
      var queue := w.bus.channels[ch].queue;
      if w'.bus.channels[ch].open {
        assert w.history[w.start..w.upto] == w.history[w.start..];
        assert w'.history[w.start..w'.upto] == w'.history[w.start..];
        KeptConcat(queue, [e], f);
        assert Coming(w') == Coming(w) + Kept([e], f);
        assert w.client.received + Coming(w') == (w.client.received + Coming(w)) + Kept([e], f);
      } else {
        assert w'.history[w.start..w.upto] == w.history[w.start..w.upto];
        assert Coming(w') == Coming(w);
      }
    }
  }

  lemma PublishOffers(b: Bus, e: Event)
    ensures Publish(b, e).channels.Keys == b.channels.Keys
    ensures forall k :: k in b.channels ==> Publish(b, e).channels[k] == Offer(b.channels[k], e)
  {
  }

  /** A non-empty prefix of what was wanted is cut exactly behind its last event. */
  lemma {:induction false} PrefixEndsAt(s: seq<Event>, f: Wanted, d: seq<Event>, k: nat)
    requires forall i, j :: 0 <= i < j < |s| ==> s[i].id != s[j].id
    requires k < |s| && d != [] && d <= Kept(s, f) && d[|d| - 1].id == s[k].id
    ensures d == Kept(s[..k + 1], f)
  {
    var init, e := s[..|s| - 1], s[|s| - 1];
    KeptFrom(init, f);
    assert d[|d| - 1] in Kept(s, f);
    KeptFrom(s, f);
    if k == |s| - 1 {
      assert s[..k + 1] == s;
    } else {
      assert d[|d| - 1] == s[k];
      assert d[|d| - 1] != e;
      assert d <= Kept(init, f);
      PrefixEndsAt(init, f, d, k);
      assert init[..k + 1] == s[..k + 1];
    }
  }

  lemma LastIsPublished(w: World) returns (k: nat)
    requires ClientOk(w) && w.client.received != []
    ensures w.start <= k < |w.history| && w.history[k] == w.client.received[|w.client.received| - 1]
  {
    var d := w.client.received;
    var tail := w.history[w.start..];
    KeptFrom(tail, w.client.wanted);
    assert d[|d| - 1] == Kept(tail, w.client.wanted)[|d| - 1];
    assert d[|d| - 1] in tail;
    var i :| 0 <= i < |tail| && tail[i] == d[|d| - 1];
    k := w.start + i;
  }

  lemma ReceivedHasId(w: World)
    requires BusOk(w) && ClientOk(w) && w.client.received != []
    ensures LastSeen(w.client) != 0
  {
    hide ClientOk;
    var k := LastIsPublished(w);
  }

  /** The cursor of a client that received something is an event of the history, and marks how far it got. */
  lemma CursorMarks(w: World, k: nat)
    requires BusOk(w) && ClientOk(w) && w.client.received != [] && k < |w.history| && w.history[k].id == LastSeen(w.client)
    ensures w.start <= k && w.client.received == Kept(w.history[w.start..k + 1], w.client.wanted)
  {
    hide Kept;
    var m := LastIsPublished(w);
    assert k == m;
    var tail := w.history[w.start..];
    PrefixEndsAt(tail, w.client.wanted, w.client.received, k - w.start);
    assert tail[..k - w.start + 1] == w.history[w.start..k + 1];
  }

  lemma ConnectClientOk(w: World, ch: nat)
    requires BusOk(w) && ClientOk(w) && w.client.stream.None? && ch !in w.bus.channels
    ensures ClientOk(DoConnect(w, ch))
  {
    hide Kept, Owned;
    var f := w.client.wanted;
    var w' := DoConnect(w, ch);
    KeptNothing(f);
    if Replay(w.bus, f.owner, LastSeen(w.client)).Some? {
      var replay := w'.client.stream.value.replay;
      assert Coming(w') == Kept(replay, f);
      ConnectReplays(w, ch);
    }
  }

  /** What was received before and the replay fit together. */
  lemma ConnectReplays(w: World, ch: nat)
    requires BusOk(w) && ClientOk(w) && Replay(w.bus, w.client.wanted.owner, LastSeen(w.client)).Some?
    ensures
      var w' := DoConnect(w, ch);
      && w'.start <= |w.history|
      && w.client.received <= Kept(w.history[w'.start..], w.client.wanted)
      && w.client.received + Kept(w'.client.stream.value.replay, w.client.wanted) ==
         Kept(w.history[w'.start..|w.history|], w.client.wanted)
  {
    hide Kept, Owned;
    var f := w.client.wanted;
    var off := |w.history| - |w.bus.events|;
    assert w.bus.events == w.history[off..];
    if w.client.received == [] {
      KeptOwned(w.bus.events, f);
      assert w.history[off..|w.history|] == w.bus.events;
    } else {
      ReceivedHasId(w);
      ResumeReplays(w);
    }
  }

  lemma ResumeReplays(w: World)
    requires BusOk(w) && ClientOk(w) && w.client.received != [] && LastSeen(w.client) != 0
    requires Replay(w.bus, w.client.wanted.owner, LastSeen(w.client)).Some?
    ensures
      w.client.received + Kept(Replay(w.bus, w.client.wanted.owner, LastSeen(w.client)).value, w.client.wanted) ==
      Kept(w.history[w.start..|w.history|], w.client.wanted)
  {
    hide Kept, Owned, BusOk, ClientOk, LastSeen, Replay;
    var f := w.client.wanted;
    var k := RetainedIsPublished(w, f.owner, LastSeen(w.client));
    RefusedExactlyWhenEvicted(w, k, f.owner);
    CursorMarks(w, k);
    var seen, ahead := w.history[w.start..k + 1], w.history[k + 1..];
    KeptOwned(ahead, f);
    assert w.history[w.start..|w.history|] == seen + ahead;
    KeptConcat(seen, ahead, f);
  }

  lemma RetainedIsPublished(w: World, owner: nat, id: nat) returns (k: nat)
    requires BusOk(w) && id != 0 && Replay(w.bus, owner, id).Some?
    ensures k < |w.history| && w.history[k].id == id
  {
    hide BusOk, Owned;
    Retained(w);
    k := |w.history| - |w.bus.events| + Find(w.bus.events, id);
  }

  lemma KeptNothing(f: Wanted)
    ensures Kept([], f) == []
  {
  }

  lemma WriteClientOk(w: World)
    requires ClientOk(w) && w.client.stream.Some? && DoWrite(w).Some?
    ensures ClientOk(DoWrite(w).value)
  {
    hide Kept;
    var st, f := w.client.stream.value, w.client.wanted;
    var queue := w.bus.channels[st.channel].queue;
    var w' := DoWrite(w).value;
    KeptNothing(f);
    if st.replay != [] {
      assert st.replay == st.replay[..1] + st.replay[1..];
      KeptConcat(st.replay[..1], st.replay[1..], f);
    } else {
      assert queue == queue[..1] + queue[1..];
      KeptConcat(queue[..1], queue[1..], f);
    }
    assert Coming(w') == Coming(w);
  }

  lemma KeptPrefix(h: seq<Event>, start: nat, upto: nat, f: Wanted)
    requires start <= upto <= |h|
    ensures Kept(h[start..upto], f) <= Kept(h[start..], f)
  {
    assert h[start..] == h[start..upto] + h[upto..];
    KeptConcat(h[start..upto], h[upto..], f);
  }

  lemma ReceiveClientOk(w: World)
    requires ClientOk(w) && w.client.stream.Some? && DoReceive(w).Some?
    ensures ClientOk(DoReceive(w).value)
  {
    hide Kept;
    var w' := DoReceive(w).value;
    assert w'.client.received + Coming(w') == w.client.received + Coming(w);
    KeptPrefix(w.history, w.start, w.upto, w.client.wanted);
  }

  lemma OtherClientOk(w: World, s: Step)
    requires ClientOk(w) && Next(w, s).Some? && (s.Break? || s.OtherSubscribes? || s.OtherTakes? || s.OtherCancels?)
    ensures ClientOk(Next(w, s).value)
  {
    hide Kept, Replay;
    assert w.client.stream.Some? && Next(w, s).value.client.stream.Some? ==> Coming(Next(w, s).value) == Coming(w);
  }

  ghost predicate Inv(w: World) { BusOk(w) && ClientOk(w) }

  lemma NextInv(w: World, s: Step)
    requires Inv(w) && Next(w, s).Some?
    ensures Inv(Next(w, s).value)
    ensures w.client.received <= Next(w, s).value.client.received && w.history <= Next(w, s).value.history
    ensures w.client.received != [] ==> Next(w, s).value.start == w.start
    ensures Next(w, s).value.client.wanted == w.client.wanted && Next(w, s).value.bus.capacity == w.bus.capacity
  {
    hide Kept, Replay, ClientOk, Publish;
    match s
    case Published(e) =>
      PublishBusOk(w, e);
      PublishClientOk(w, e);
      PublishCapacity(w.bus, e);
    case Connect(ch) =>
      ConnectClientOk(w, ch);
      if w.client.received != [] {
        ReceivedHasId(w);
      }
    case Write => WriteClientOk(w);
    case Receive => ReceiveClientOk(w);
    case _ => OtherClientOk(w, s);
  }

  lemma PublishCapacity(b: Bus, e: Event)
    ensures Publish(b, e).capacity == b.capacity
  {
  }

  // ---------- runs ----------

  ghost function Run(w: World, steps: seq<Step>): Option<World> {
    if steps == [] then Some(w)
    else
      var before := Run(w, steps[..|steps| - 1]);
      if before.Some? then Next(before.value, steps[|steps| - 1]) else None
  }

  function Initial(capacity: nat, wanted: Wanted): World {
    World(Bus(capacity, [], map[]), [], Client(wanted, [], None), 0, 0)
  }

  lemma {:induction false} RunInv(w: World, steps: seq<Step>)
    requires Inv(w) && Run(w, steps).Some?
    ensures
      var w' := Run(w, steps).value;
      && Inv(w') && w.client.received <= w'.client.received && w'.client.wanted == w.client.wanted
      && (w.client.received != [] ==> w'.start == w.start)
  {
    hide Next, Inv;
    if steps == [] {
    } else {
      RunInv(w, steps[..|steps| - 1]);
      NextInv(Run(w, steps[..|steps| - 1]).value, steps[|steps| - 1]);
    }
  }

  /** Over any number of reconnects, the events a client received are a contiguous segment of what was published for it,
      without loss or repetition; when its stream is live and idle, the segment reaches the present. */
  lemma DeliveryIsContiguous(capacity: nat, wanted: Wanted, steps: seq<Step>)
    requires Run(Initial(capacity, wanted), steps).Some?
    ensures
      var w := Run(Initial(capacity, wanted), steps).value;
      && w.start <= |w.history|
      && w.client.received <= Kept(w.history[w.start..], wanted)
      && Distinct(w.client.received)
      && (w.client.stream.Some? && w.client.stream.value.channel in w.bus.channels
          && w.bus.channels[w.client.stream.value.channel].open && Coming(w) == [] ==>
            w.client.received == Kept(w.history[w.start..], wanted))
  {
    hide Next, Kept;
    KeptNothing(wanted);
    assert Inv(Initial(capacity, wanted));
    RunInv(Initial(capacity, wanted), steps);
    var w := Run(Initial(capacity, wanted), steps).value;
    KeptDistinct(w.history[w.start..], wanted);
    assert w.history[w.start..|w.history|] == w.history[w.start..];
  }

  predicate Distinct(s: seq<Event>) { forall i, j :: 0 <= i < j < |s| ==> s[i].id != s[j].id }

  /** A client receives nothing but events of its owner, and of its agent if it asked for one. */
  lemma ReceivesOwnEvents(capacity: nat, wanted: Wanted, steps: seq<Step>)
    requires Run(Initial(capacity, wanted), steps).Some?
    ensures
      var received := Run(Initial(capacity, wanted), steps).value.client.received;
      forall e :: e in received ==> e.owner == wanted.owner && (wanted.agent != 0 ==> e.agent == wanted.agent)
  {
    hide Next, Kept;
    DeliveryIsContiguous(capacity, wanted, steps);
    var w := Run(Initial(capacity, wanted), steps).value;
    KeptFrom(w.history[w.start..], wanted);
    forall e | e in w.client.received
      ensures e.owner == wanted.owner && (wanted.agent != 0 ==> e.agent == wanted.agent)
    {
      assert e in Kept(w.history[w.start..], wanted);
    }
  }

  lemma {:induction false} KeptDistinct(s: seq<Event>, f: Wanted)
    requires Distinct(s)
    ensures Distinct(Kept(s, f))
  {
    if s == [] {
    } else {
      var init := s[..|s| - 1];
      KeptDistinct(init, f);
      KeptFrom(init, f);
      var k := Kept(s, f);
      forall i, j | 0 <= i < j < |k| ensures k[i].id != k[j].id {
        if j == |Kept(init, f)| {
          assert k[i] == Kept(init, f)[i] && k[i] in init;
        }
      }
    }
  }

  /** A reconnect is refused exactly when the event behind its cursor has been evicted; it is never skipped over. */
  lemma RefusedExactlyWhenEvicted(w: World, k: nat, owner: nat)
    requires BusOk(w) && k < |w.history|
    ensures Replay(w.bus, owner, w.history[k].id).None? <==> k + w.bus.capacity < |w.history|
    ensures k + w.bus.capacity >= |w.history| ==>
      Replay(w.bus, owner, w.history[k].id) == Some(Owned(w.history[k + 1..], owner))
  {
    hide BusOk, Owned;
    FoundAt(w, k);
    IdsArePositive(w, k);
  }

  lemma IdsArePositive(w: World, k: nat)
    requires BusOk(w) && k < |w.history|
    ensures w.history[k].id != 0
  {
  }

  /** An identifier names one event of the history. */
  lemma OneIndex(w: World, i: nat, k: nat)
    requires BusOk(w) && i < |w.history| && k < |w.history| && w.history[i].id == w.history[k].id
    ensures i == k
  {
    hide Last;
  }

  /** How the retained events lie in the history. */
  lemma Retained(w: World)
    requires BusOk(w)
    ensures |w.bus.events| == if |w.history| > w.bus.capacity then w.bus.capacity else |w.history|
    ensures w.bus.events == w.history[|w.history| - |w.bus.events|..]
  {
  }

  /** Where an event of the history is found among the retained ones. */
  lemma FoundAt(w: World, k: nat)
    requires BusOk(w) && k < |w.history|
    ensures
      var m := Find(w.bus.events, w.history[k].id);
      && (m < |w.bus.events| <==> |w.history| <= k + w.bus.capacity)
      && (m < |w.bus.events| ==> w.bus.events[m + 1..] == w.history[k + 1..])
  {
    hide BusOk;
    Retained(w);
    var events, off := w.bus.events, |w.history| - |w.bus.events|;
    var m := Find(events, w.history[k].id);
    if off <= k {
      assert events[k - off] == w.history[k];
    }
    if m < |events| {
      assert events[m] == w.history[off + m];
      OneIndex(w, off + m, k);
    }
  }

  /** So a client that received something gets a new stream exactly when its last event is still retained. */
  lemma ReconnectsExactly(w: World, ch: nat) returns (k: nat)
    requires Inv(w) && w.client.stream.None? && w.client.received != [] && ch !in w.bus.channels
    ensures k < |w.history| && w.history[k] == w.client.received[|w.client.received| - 1]
    ensures DoConnect(w, ch).client.stream.Some? <==> |w.history| <= k + w.bus.capacity
  {
    hide ClientOk, Kept, Replay, BusOk, Owned;
    ReceivedHasId(w);
    k := LastIsPublished(w);
    RefusedExactlyWhenEvicted(w, k, w.client.wanted.owner);
  }
}
