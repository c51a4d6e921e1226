/** The bus as it runs: the slice of events is trimmed and the subscriber set changed in place. */
module EventBusObject {
  import opened Prelude
  import Spec = EventBus

  class EventBus {
    const capacity: nat
    var events: seq<Spec.Event>
    var channels: map<nat, Spec.Channel>   // every channel ever handed out
    var subscribers: set<nat>              // those still registered

    ghost predicate Valid()
      reads this
    {
      forall k :: k in subscribers <==> k in channels && channels[k].open
    }

    ghost function Model(): Spec.Bus
      reads this
    {
      Spec.Bus(capacity, events, channels)
    }

    constructor (capacity: nat)
      ensures Valid() && Model() == Spec.Bus(capacity, [], map[])
    {
      this.capacity := capacity;
      events := [];
      channels := map[];
      subscribers := {};
    }

    method Publish(e: Spec.Event)
      requires Valid()
      modifies this
      ensures Valid() && Model() == Spec.Publish(old(Model()), e)
    {
      hide Spec.Owned;
      events := events + [e];
      if |events| > capacity {
        events := events[|events| - capacity..];
      }
      var rest := subscribers;
      while rest != {}
        invariant rest <= subscribers && Valid() && events == Spec.Last(old(events) + [e], capacity)
        invariant channels.Keys == old(channels).Keys
        invariant forall k :: k in rest ==> channels[k] == old(channels)[k]
        invariant forall k :: k in channels && k !in rest ==> channels[k] == Spec.Offer(old(channels)[k], e)
        decreases rest
      {
        var k :| k in rest;
        var c := channels[k];
        if |c.queue| < Spec.QUEUE {
          channels := channels[k := c.(queue := c.queue + [e])];
        } else {
          channels := channels[k := c.(open := false)];
          subscribers := subscribers - {k};
        }
        rest := rest - {k};
      }
      assert channels == Spec.Publish(old(Model()), e).channels;
    }

    /** The index behind the cursor. */
    method Locate(after: nat) returns (found: bool, start: nat)
      ensures found <==> Spec.Find(events, after) < |events|
      ensures found ==> start == Spec.Find(events, after) + 1
    {
      start := 0;
      found := false;
      for i := 0 to |events|
        invariant forall j :: 0 <= j < i ==> events[j].id != after
      {
        if events[i].id == after {
          start := i + 1;
          found := true;
          return;
        }
      }
    }

    method Collect(owner: nat, start: nat) returns (replay: seq<Spec.Event>)
      requires start <= |events|
      ensures replay == Spec.Owned(events[start..], owner)
    {
      replay := [];
      for i := start to |events|
        invariant replay == Spec.Owned(events[start..i], owner)
      {
        assert events[start..i + 1][..i - start] == events[start..i];
        if events[i].owner == owner {
          replay := replay + [events[i]];
        }
      }
      assert events[start..|events|] == events[start..];
    }

    method Subscribe(owner: nat, after: nat, channel: nat) returns (replay: Option<seq<Spec.Event>>)
      requires Valid() && channel !in channels
      modifies this
      ensures Valid() && Model() == Spec.Subscribe(old(Model()), owner, after, channel)
      ensures replay == Spec.Replay(old(Model()), owner, after)
    {
      var start := 0;
      if after != 0 {
        var found;
        found, start := Locate(after);
        if !found {
          return None;
        }
      }
      var list := Collect(owner, start);
      assert start == 0 ==> events[start..] == events;
      channels := channels[channel := Spec.Channel([], true)];
      subscribers := subscribers + {channel};
      return Some(list);
    }

    method Cancel(channel: nat)
      requires Valid()
      modifies this
      ensures Valid() && Model() == Spec.Cancel(old(Model()), channel)
    {
      if channel in subscribers {
        subscribers := subscribers - {channel};
        channels := channels[channel := channels[channel].(open := false)];
      }
    }
  }
}
