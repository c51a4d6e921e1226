/**
 The controller's work queue (internal/kubernetes/controller.go): pending, dirty and retry marks, a bounded
 channel, a fixed number of workers, and any number of concurrent enqueuers and retry timers.

 Each step is one lock section or one channel operation. The multisets say how many threads are between two such
 steps with a given agent ID. `owed` is a history variable: the IDs enqueued since their last reconcile started,
 until the retry budget runs out or the queue overflows.
 */
module WorkQueue {
  import opened Prelude

  /** An agent ID; only equality is used. */
  type Id = nat

  /** The empty ID, which Enqueue ignores. */
  const NO_ID: Id := 0

  datatype Queue = Queue(
    capacity: nat, workers: nat, maxRetries: nat,
    channel: seq<Id>, pending: set<Id>, dirty: set<Id>, retries: map<Id, nat>,
    pushing: multiset<Id>,     // Enqueue has marked the ID and is about to send it
    dropping: multiset<Id>,    // Enqueue found the channel full
    requeueing: multiset<Id>,  // a worker found the dirty mark and waits to send the ID back
    inFlight: multiset<Id>,    // a worker is reconciling the ID
    scheduling: multiset<Id>,  // a reconcile failed and its retry timer is about to start
    timers: multiset<Id>,
    owed: set<Id>)

  datatype Step =
    | Enqueue(id: Id)
    | Push(id: Id)
    | Overflow(id: Id)
    | Drop(id: Id)
    | Receive
    | Succeed(id: Id)
    | Requeue(id: Id)
    | Fail(id: Id)
    | Schedule(id: Id)
    | Fire(id: Id)

  function NewQueue(capacity: nat, workers: nat, maxRetries: nat): Queue {
    var none: multiset<Id> := multiset{};
    Queue(capacity, workers, maxRetries, [], {}, {}, map[], none, none, none, none, none, none, {})
  }

  /** One more thread holds the ID. */
  function With(m: multiset<Id>, id: Id): (r: multiset<Id>)
    ensures |r| == |m| + 1
    ensures forall x :: r[x] == if x == id then m[x] + 1 else m[x]
  {
    m + multiset{id}
  }

  /** One thread fewer holds the ID. */
  function Without(m: multiset<Id>, id: Id): (r: multiset<Id>)
    requires id in m
    ensures |r| == |m| - 1
    ensures forall x :: r[x] == if x == id then m[x] - 1 else m[x]
  {
    m - multiset{id}
  }

  /** The first lock section of Enqueue. */
  function Mark(q: Queue, id: Id): Queue {
    if id == NO_ID then q
    else if id in q.pending then q.(dirty := q.dirty + {id}, owed := q.owed + {id})
    else q.(pending := q.pending + {id}, pushing := With(q.pushing, id), owed := q.owed + {id})
  }

  function Attempts(q: Queue, id: Id): nat { if id in q.retries then q.retries[id] else 0 }

  /** The worker's lock section after a reconcile. */
  function Finish(q: Queue, id: Id, ok: bool): Queue
    requires id in q.inFlight
  {
    var q1 := q.(inFlight := Without(q.inFlight, id));
    if ok then
      var q2 := q1.(retries := q.retries - {id});
      if id in q.dirty then q2.(dirty := q.dirty - {id}, requeueing := With(q.requeueing, id))
      else q2.(pending := q.pending - {id})
    else
      var attempt := Attempts(q, id) + 1;
      var q2 := q1.(pending := q.pending - {id}, dirty := q.dirty - {id}, retries := q.retries[id := attempt]);
      if attempt <= q.maxRetries then q2.(scheduling := With(q.scheduling, id)) else q2.(owed := q.owed - {id})
  }

  /** The workers that are not waiting for an ID: reconciling, sending one back, or arming a retry. */
  function Busy(q: Queue): nat { |q.inFlight| + |q.requeueing| + |q.scheduling| }

  predicate Enabled(q: Queue, s: Step) {
    match s
    case Enqueue(_) => true
    case Push(id) => id in q.pushing && |q.channel| < q.capacity
    case Overflow(id) => id in q.pushing && |q.channel| >= q.capacity
    case Drop(id) => id in q.dropping
    case Receive => q.channel != [] && Busy(q) < q.workers
    case Succeed(id) => id in q.inFlight
    case Requeue(id) => id in q.requeueing && |q.channel| < q.capacity
    case Fail(id) => id in q.inFlight
    case Schedule(id) => id in q.scheduling
    case Fire(id) => id in q.timers
  }

  function Next(q: Queue, s: Step): Queue
    requires Enabled(q, s)
  {
    match s
    case Enqueue(id) => Mark(q, id)
    case Push(id) => q.(channel := q.channel + [id], pushing := Without(q.pushing, id))
    case Overflow(id) => q.(pushing := Without(q.pushing, id), dropping := With(q.dropping, id))
    case Drop(id) =>
      q.(dropping := Without(q.dropping, id), pending := q.pending - {id}, dirty := q.dirty - {id}, owed := q.owed - {id})
    case Receive =>
      q.(channel := q.channel[1..], inFlight := With(q.inFlight, q.channel[0]), owed := q.owed - {q.channel[0]})
    case Succeed(id) => Finish(q, id, true)
    case Requeue(id) => q.(channel := q.channel + [id], requeueing := Without(q.requeueing, id))
    case Fail(id) => Finish(q, id, false)
    case Schedule(id) => q.(scheduling := Without(q.scheduling, id), timers := With(q.timers, id))
    case Fire(id) => Mark(q.(timers := Without(q.timers, id)), id)
  }

  ghost function Run(q: Queue, steps: seq<Step>): Option<Queue> {
    if steps == [] then Some(q)
    else
      var before := Run(q, steps[..|steps| - 1]);
      if before.Some? && Enabled(before.value, steps[|steps| - 1]) then Some(Next(before.value, steps[|steps| - 1])) else None
  }

  // ---------- one token per ID ----------

  function Tokens(q: Queue, id: Id): nat {
    multiset(q.channel)[id] + q.pushing[id] + q.dropping[id] + q.requeueing[id] + q.inFlight[id]
  }

  /** Queued, handed over or in flight exactly once if pending, and nowhere otherwise. */
  predicate OneToken(q: Queue, id: Id) {
    && Tokens(q, id) == (if id in q.pending then 1 else 0)
    && (id in q.dirty ==> id in q.pending)
  }

  lemma MarkToken(q: Queue, x: Id, id: Id)
    requires OneToken(q, id)
    ensures OneToken(Mark(q, x), id)
  {
    hide With;
  }

  lemma FinishToken(q: Queue, x: Id, ok: bool, id: Id)
    requires x in q.inFlight && OneToken(q, id)
    ensures OneToken(Finish(q, x, ok), id)
  {
    hide With, Without, Attempts;
  }

  lemma ReceiveToken(q: Queue, id: Id)
    requires Enabled(q, Receive) && OneToken(q, id)
    ensures OneToken(Next(q, Receive), id)
  {
    hide With;
    assert q.channel == [q.channel[0]] + q.channel[1..];
    assert multiset(q.channel) == multiset{q.channel[0]} + multiset(q.channel[1..]);
  }

  lemma OneTokenStep(q: Queue, s: Step, id: Id)
    requires Enabled(q, s) && OneToken(q, id)
    ensures OneToken(Next(q, s), id)
  {
    hide With, Without, Mark, Finish;
    match s
    case Enqueue(x) => MarkToken(q, x, id);
    case Receive => ReceiveToken(q, id);
    case Succeed(x) => FinishToken(q, x, true, id);
    case Fail(x) => FinishToken(q, x, false, id);
    case Fire(x) => MarkToken(q.(timers := Without(q.timers, x)), x, id);
    case _ =>
  }

  /** In every interleaving each ID has one token while it is pending and none otherwise. */
  lemma {:induction false} OneTokenPerId(q: Queue, steps: seq<Step>, id: Id)
    requires OneToken(q, id) && Run(q, steps).Some?
    ensures OneToken(Run(q, steps).value, id)
  {
    hide OneToken, Next;
    if steps == [] {
    } else {
      OneTokenPerId(q, steps[..|steps| - 1], id);
      OneTokenStep(Run(q, steps[..|steps| - 1]).value, steps[|steps| - 1], id);
    }
  }

  /** No ID is reconciled by two workers at once, nor queued while it is reconciled. */
  lemma NeverTwoWorkers(q: Queue, id: Id)
    requires OneToken(q, id)
    ensures q.inFlight[id] <= 1
    ensures id in q.inFlight ==> id !in q.channel && id !in q.pushing && id !in q.requeueing && id !in q.dropping
  {
    assert id in q.channel ==> multiset(q.channel)[id] > 0;
  }

  // ---------- no lost wake-up ----------

  /** Someone is on the way to reconcile the ID. */
  predicate Awake(q: Queue, id: Id) {
    || id in q.channel || id in q.pushing || id in q.dropping || id in q.requeueing
    || (id in q.inFlight && id in q.dirty)
    || id in q.scheduling || id in q.timers
  }

  predicate Wakes(q: Queue, id: Id) { id in q.owed ==> Awake(q, id) }

  lemma MarkWakes(q: Queue, x: Id, id: Id)
    requires OneToken(q, id) && (id == x || Wakes(q, id)) && id != NO_ID
    ensures Wakes(Mark(q, x), id)
  {
    hide With;
    assert id in q.channel <==> multiset(q.channel)[id] > 0;
  }

  lemma FinishWakes(q: Queue, x: Id, ok: bool, id: Id)
    requires x in q.inFlight && OneToken(q, id) && Wakes(q, id)
    ensures Wakes(Finish(q, x, ok), id)
  {
    hide With, Without;
    assert id in q.channel <==> multiset(q.channel)[id] > 0;
  }

  lemma WakesStep(q: Queue, s: Step, id: Id)
    requires Enabled(q, s) && OneToken(q, id) && Wakes(q, id) && id != NO_ID
    ensures Wakes(Next(q, s), id)
  {
    hide With, Without, Mark, Finish;
    match s
    case Enqueue(x) => MarkWakes(q, x, id);
    case Receive => assert q.channel == [q.channel[0]] + q.channel[1..];
    case Succeed(x) => FinishWakes(q, x, true, id);
    case Fail(x) => FinishWakes(q, x, false, id);
    case Fire(x) => MarkWakes(q.(timers := Without(q.timers, x)), x, id);
    case _ =>
  }

  /** No wake-up is lost: an enqueued ID stays queued, handed over, marked dirty in flight or armed for retry until a
      reconcile of it starts, unless the retry budget runs out or the queue overflows. */
  lemma {:induction false} NoLostWakeup(q: Queue, steps: seq<Step>, id: Id)
    requires OneToken(q, id) && Wakes(q, id) && Run(q, steps).Some? && id != NO_ID
    ensures Wakes(Run(q, steps).value, id)
  {
    hide OneToken, Wakes, Next;
    if steps == [] {
    } else {
      var before := steps[..|steps| - 1];
      NoLostWakeup(q, before, id);
      OneTokenPerId(q, before, id);
      WakesStep(Run(q, before).value, steps[|steps| - 1], id);
    }
  }

  /** `owed` changes only as it should: an enqueue or a fired timer sets it, and only the start of a reconcile, an
      overflow or an exhausted retry budget clears it. */
  lemma OwedExactly(q: Queue, s: Step, id: Id)
    requires Enabled(q, s) && id != NO_ID
    ensures (s == Enqueue(id) || s == Fire(id)) ==> id in Next(q, s).owed
    ensures id in q.owed && id !in Next(q, s).owed ==>
      || (s.Receive? && q.channel[0] == id)
      || s == Drop(id)
      || (s == Fail(id) && Attempts(q, id) >= q.maxRetries)
  {
    hide With, Without;
  }

  // ---------- the retry budget ----------

  /** How often reconciles of the ID failed since the last one that succeeded. */
  function FailuresSince(steps: seq<Step>, id: Id): nat {
    if steps == [] then 0
    else
      var s := steps[|steps| - 1];
      if s == Succeed(id) then 0 else FailuresSince(steps[..|steps| - 1], id) + if s == Fail(id) then 1 else 0
  }

  lemma AttemptsStep(q: Queue, s: Step, id: Id)
    requires Enabled(q, s)
    ensures Attempts(Next(q, s), id) == if s == Succeed(id) then 0 else Attempts(q, id) + if s == Fail(id) then 1 else 0
    ensures Next(q, s).maxRetries == q.maxRetries
  {
    hide With, Without;
  }

  /** The retry count is the number of failures since the last success, in every run. */
  lemma {:induction false} AttemptsCountFailures(capacity: nat, workers: nat, maxRetries: nat, steps: seq<Step>, id: Id)
    requires Run(NewQueue(capacity, workers, maxRetries), steps).Some?
    ensures
      var q := Run(NewQueue(capacity, workers, maxRetries), steps).value;
      Attempts(q, id) == FailuresSince(steps, id) && q.maxRetries == maxRetries
  {
    hide Next, Enabled;
    if steps == [] {
    } else {
      var before := steps[..|steps| - 1];
      AttemptsCountFailures(capacity, workers, maxRetries, before, id);
      AttemptsStep(Run(NewQueue(capacity, workers, maxRetries), before).value, steps[|steps| - 1], id);
    }
  }

  lemma FailSchedules(q: Queue, id: Id)
    requires Enabled(q, Fail(id))
    ensures
      var q' := Next(q, Fail(id));
      if Attempts(q, id) < q.maxRetries then q'.scheduling == With(q.scheduling, id) && q'.owed == q.owed
      else q'.scheduling == q.scheduling && q'.owed == q.owed - {id}
  {
  }

  /** So a failure is retried exactly while at most `maxRetries` failures follow the last success, and ends the obligation
      exactly when there are more. */
  lemma BudgetExactly(capacity: nat, workers: nat, maxRetries: nat, steps: seq<Step>, id: Id)
    requires Run(NewQueue(capacity, workers, maxRetries), steps + [Fail(id)]).Some?
    ensures
      var before := Run(NewQueue(capacity, workers, maxRetries), steps);
      var after := Run(NewQueue(capacity, workers, maxRetries), steps + [Fail(id)]).value;
      before.Some? &&
      if FailuresSince(steps + [Fail(id)], id) <= maxRetries
      then after.scheduling == With(before.value.scheduling, id) && after.owed == before.value.owed
      else after.scheduling == before.value.scheduling && after.owed == before.value.owed - {id}
  {
    hide Next, Enabled, With;
    assert (steps + [Fail(id)])[..|steps|] == steps;
    AttemptsCountFailures(capacity, workers, maxRetries, steps, id);
    FailSchedules(Run(NewQueue(capacity, workers, maxRetries), steps).value, id);
  }

  // ---------- enough capacity ----------

  /** Every agent ID the run deals with is in `ids`. */
  predicate Within(q: Queue, ids: set<Id>) {
    && q.pending <= ids
    && (forall id :: id in q.scheduling ==> id in ids)
    && (forall id :: id in q.timers ==> id in ids)
  }

  ghost predicate AllTokens(q: Queue) { forall id: Id :: OneToken(q, id) }

  lemma {:induction false} DistinctFit(m: multiset<Id>, ids: set<Id>)
    requires forall x :: x in m ==> m[x] <= 1 && x in ids
    ensures |m| <= |ids|
  {
    if |m| == 0 {
    } else {
      var x :| x in m;
      DistinctFit(m - multiset{x}, ids - {x});
    }
  }

  /** What is queued and what waits to be sent back are different IDs. */
  lemma QueuedFit(q: Queue, ids: set<Id>)
    requires AllTokens(q) && q.pending <= ids
    ensures |q.channel| + |q.pushing| + |q.requeueing| <= |ids|
  {
    var m := multiset(q.channel) + q.pushing + q.requeueing;
    forall x | x in m
      ensures m[x] <= 1 && x in ids
    {
      assert OneToken(q, x);
    }
    DistinctFit(m, ids);
  }

  /** With room for every ID nothing is dropped and no worker waits to send an ID back. */
  lemma AlwaysRoom(q: Queue, ids: set<Id>, id: Id)
    requires AllTokens(q) && Within(q, ids) && |ids| <= q.capacity
    requires id in q.pushing || id in q.requeueing
    ensures |q.channel| < q.capacity
    ensures !Enabled(q, Overflow(id))
  {
    QueuedFit(q, ids);
    assert id in q.pushing ==> |q.pushing| > 0;
    assert id in q.requeueing ==> |q.requeueing| > 0;
  }

  /** Every enqueue names one of these agents, or none. */
  predicate Asks(s: Step, ids: set<Id>) { s.Enqueue? ==> s.id == NO_ID || s.id in ids }

  lemma WithinStep(q: Queue, s: Step, ids: set<Id>)
    requires AllTokens(q) && Within(q, ids) && Enabled(q, s) && Asks(s, ids)
    ensures Within(Next(q, s), ids)
  {
    hide With, Without;
    if s.Fail? {
      assert OneToken(q, s.id);
    }
  }

  /** The limits never change, and there are never more busy workers than workers. */
  predicate Staffed(q: Queue, capacity: nat, workers: nat) {
    q.capacity == capacity && q.workers == workers && Busy(q) <= workers
  }

  lemma StaffedStep(q: Queue, s: Step)
    requires Enabled(q, s) && Busy(q) <= q.workers
    ensures Staffed(Next(q, s), q.capacity, q.workers)
  {
    hide With, Without;
  }

  /** In every run the tokens, the IDs and the staff stay as they should. */
  lemma {:induction false} RunWithin(q: Queue, steps: seq<Step>, ids: set<Id>)
    requires AllTokens(q) && Within(q, ids) && Busy(q) <= q.workers
    requires (forall i :: 0 <= i < |steps| ==> Asks(steps[i], ids)) && Run(q, steps).Some?
    ensures
      var q' := Run(q, steps).value;
      AllTokens(q') && Within(q', ids) && Staffed(q', q.capacity, q.workers)
  {
    hide OneToken, Next, Within, Asks, Enabled, Busy;
    if steps == [] {
    } else {
      var before := steps[..|steps| - 1];
      RunWithin(q, before, ids);
      var m := Run(q, before).value;
      WithinStep(m, steps[|steps| - 1], ids);
      StaffedStep(m, steps[|steps| - 1]);
      forall id: Id
        ensures OneToken(Run(q, steps).value, id)
      {
        OneTokenStep(m, steps[|steps| - 1], id);
      }
    }
  }

  lemma NotDroppedStep(q: Queue, s: Step, ids: set<Id>)
    requires AllTokens(q) && Within(q, ids) && |ids| <= q.capacity && Enabled(q, s) && |q.dropping| == 0
    ensures |Next(q, s).dropping| == 0
  {
    hide With, Without, OneToken, Within;
    if s.Overflow? {
      AlwaysRoom(q, ids, s.id);
    }
  }

  /** In every run over at most `capacity` IDs no enqueue is ever dropped. */
  lemma {:induction false} NothingDropped(q: Queue, steps: seq<Step>, ids: set<Id>)
    requires AllTokens(q) && Within(q, ids) && Busy(q) <= q.workers && |ids| <= q.capacity && |q.dropping| == 0
    requires (forall i :: 0 <= i < |steps| ==> Asks(steps[i], ids)) && Run(q, steps).Some?
    ensures |Run(q, steps).value.dropping| == 0
  {
    hide OneToken, Next, Within, Asks, Enabled, Busy;
    if steps == [] {
    } else {
      var before := steps[..|steps| - 1];
      NothingDropped(q, before, ids);
      RunWithin(q, before, ids);
      NotDroppedStep(Run(q, before).value, steps[|steps| - 1], ids);
    }
  }

  // ---------- the queue drains ----------

  /** Work left, weighted by how far it is from done. */
  function Work(q: Queue): nat {
    9 * |q.scheduling| + 8 * |q.timers| + 5 * |q.dirty| + 4 * |q.pushing| + 4 * |q.requeueing|
    + 3 * |q.channel| + 2 * |q.inFlight| + |q.dropping|
  }

  /** Once nothing new is enqueued and reconciles succeed, every step shrinks the work left. */
  lemma WorkShrinks(q: Queue, s: Step)
    requires Enabled(q, s) && !s.Enqueue? && !s.Fail?
    ensures Work(Next(q, s)) < Work(q)
  {
    hide With, Without, Mark, Finish, Work;
    match s
    case Succeed(id) => FinishShrinks(q, id);
    case Fire(id) =>
      MarkGrows(q.(timers := Without(q.timers, id)), id);
      TimerShrinks(q, id);
    case _ => MoveShrinks(q, s);
  }

  lemma FinishShrinks(q: Queue, id: Id)
    requires id in q.inFlight
    ensures Work(Finish(q, id, true)) < Work(q)
  {
    hide With, Without;
    var q' := Finish(q, id, true);
    if id in q.dirty {
      assert |q'.dirty| == |q.dirty| - 1 && |q'.requeueing| == |q.requeueing| + 1;
    }
  }

  lemma MarkGrows(q: Queue, id: Id)
    ensures Work(Mark(q, id)) <= Work(q) + 5
  {
    hide With;
    var q' := Mark(q, id);
    assert |q'.dirty| <= |q.dirty| + 1;
    assert q'.dirty != q.dirty ==> q'.pushing == q.pushing;
  }

  lemma TimerShrinks(q: Queue, id: Id)
    requires id in q.timers
    ensures Work(q.(timers := Without(q.timers, id))) == Work(q) - 8
  {
    hide Without;
  }

  lemma MoveShrinks(q: Queue, s: Step)
    requires Enabled(q, s)
    requires s.Push? || s.Overflow? || s.Drop? || s.Receive? || s.Requeue? || s.Schedule?
    ensures Work(Next(q, s)) < Work(q)
  {
    hide With, Without;
    if s.Drop? {
      assert |q.dirty - {s.id}| <= |q.dirty|;
    }
  }

  /** Whatever the schedule, at most as many such steps can be taken as there is work left. */
  lemma {:induction false} DrainBound(q: Queue, steps: seq<Step>)
    requires Run(q, steps).Some? && forall i :: 0 <= i < |steps| ==> !steps[i].Enqueue? && !steps[i].Fail?
    ensures |steps| + Work(Run(q, steps).value) <= Work(q)
  {
    hide Next, Work, Enabled;
    if steps == [] {
    } else {
      DrainBound(q, steps[..|steps| - 1]);
      WorkShrinks(Run(q, steps[..|steps| - 1]).value, steps[|steps| - 1]);
    }
  }

  /** When nothing is left to do, no wake-up is outstanding. */
  lemma DrainedOwesNothing(q: Queue, id: Id)
    requires Wakes(q, id) && Work(q) == 0
    ensures id !in q.owed
  {
  }

  // ---------- the wedge ----------

  /** The channel is full and every worker waits to send an ID back into it. */
  predicate Wedged(q: Queue) { |q.channel| >= q.capacity && |q.requeueing| >= q.workers }

  /** Work left means that some step other than a new enqueue or a failure is possible, unless the queue is wedged. */
  lemma WorkCanGoOn(q: Queue) returns (s: Step)
    requires AllTokens(q) && Work(q) > 0 && q.workers > 0 && Busy(q) <= q.workers && !Wedged(q)
    requires q.capacity > 0
    ensures Enabled(q, s) && !s.Enqueue? && !s.Fail?
  {
    if |q.scheduling| > 0 {
      var id :| id in q.scheduling;
      s := Schedule(id);
    } else if |q.timers| > 0 {
      var id :| id in q.timers;
      s := Fire(id);
    } else if |q.pushing| > 0 {
      var id :| id in q.pushing;
      s := if |q.channel| < q.capacity then Push(id) else Overflow(id);
    } else if |q.dropping| > 0 {
      var id :| id in q.dropping;
      s := Drop(id);
    } else if |q.inFlight| > 0 {
      var id :| id in q.inFlight;
      s := Succeed(id);
    } else if |q.requeueing| > 0 && |q.channel| < q.capacity {
      var id :| id in q.requeueing;
      s := Requeue(id);
    } else if q.channel != [] {
      s := Receive;
    } else {
      assert forall id :: id in q.dirty ==> OneToken(q, id);
      assert false;
    }
  }

  /** Nothing but new requests, overflowing sends and retry timers is left to a wedged queue. */
  lemma WedgedStep(q: Queue, s: Step)
    requires Wedged(q) && Busy(q) <= q.workers && Enabled(q, s)
    ensures s.Enqueue? || s.Overflow? || s.Drop? || s.Fire?
    ensures Wedged(Next(q, s)) && Next(q, s).channel == q.channel && Next(q, s).requeueing == q.requeueing
    ensures Staffed(Next(q, s), q.capacity, q.workers)
  {
    hide With, Without;
  }

  /** A wedge is for ever: in every run from it no reconcile starts or ends and nothing is sent, whatever is enqueued. */
  lemma {:induction false} WedgedForever(q: Queue, steps: seq<Step>)
    requires Wedged(q) && Busy(q) <= q.workers && Run(q, steps).Some?
    ensures
      var q' := Run(q, steps).value;
      && Wedged(q') && q'.channel == q.channel && q'.requeueing == q.requeueing && Staffed(q', q.capacity, q.workers)
      && forall i :: 0 <= i < |steps| ==> steps[i].Enqueue? || steps[i].Overflow? || steps[i].Drop? || steps[i].Fire?
  {
    hide Next, Enabled, Busy, Wedged;
    if steps == [] {
    } else {
      var before := steps[..|steps| - 1];
      WedgedForever(q, before);
      WedgedStep(Run(q, before).value, steps[|steps| - 1]);
      assert forall i :: 0 <= i < |before| ==> steps[i] == before[i];
    }
  }

  /** In particular, whoever is owed a reconcile in the channel of a wedged queue stays owed one. */
  lemma {:induction false} OwedForever(q: Queue, steps: seq<Step>, id: Id)
    requires Wedged(q) && Busy(q) <= q.workers && Run(q, steps).Some?
    requires OneToken(q, id) && id in q.channel && id in q.owed
    ensures id in Run(q, steps).value.owed
  {
    hide Next, Enabled, Busy, Wedged, OneToken;
    if steps == [] {
    } else {
      var before := steps[..|steps| - 1];
      OwedForever(q, before, id);
      WedgedForever(q, before);
      OneTokenPerId(q, before, id);
      StillOwed(Run(q, before).value, steps[|steps| - 1], id);
    }
  }

  lemma StillOwed(q: Queue, s: Step, id: Id)
    requires Wedged(q) && Busy(q) <= q.workers && Enabled(q, s) && OneToken(q, id) && id in q.channel && id in q.owed
    ensures id in Next(q, s).owed
  {
    hide With, Without;
    WedgedStep(q, s);
    assert multiset(q.channel)[id] > 0;
  }

  /** With fewer IDs than the channel and the workers can hold together the queue is not wedged. */
  lemma TooFewToWedge(q: Queue, ids: set<Id>)
    requires AllTokens(q) && q.pending <= ids && |ids| < q.capacity + q.workers
    ensures !Wedged(q)
  {
    QueuedFit(q, ids);
  }

  ghost predicate AtRest(q: Queue) { forall s :: Enabled(q, s) ==> s.Enqueue? || s.Fail? }

  /** Over fewer IDs than channel and workers hold together, every schedule without new requests and failures that
      cannot be continued has drained the queue, and no reconcile is owed. */
  lemma QueueDrains(q: Queue, steps: seq<Step>, ids: set<Id>, id: Id)
    requires AllTokens(q) && Within(q, ids) && Busy(q) <= q.workers && q.workers > 0 && q.capacity > 0
    requires |ids| < q.capacity + q.workers && Wakes(q, id) && id != NO_ID
    requires Run(q, steps).Some? && forall i :: 0 <= i < |steps| ==> !steps[i].Enqueue? && !steps[i].Fail?
    ensures |steps| <= Work(q)
    ensures AtRest(Run(q, steps).value) ==> Work(Run(q, steps).value) == 0 && id !in Run(q, steps).value.owed
  {
    hide OneToken, Next, Wakes, Work, Wedged, Enabled, Busy;
    var q' := Run(q, steps).value;
    DrainBound(q, steps);
    RunWithin(q, steps, ids);
    TooFewToWedge(q', ids);
    assert OneToken(q, id);
    NoLostWakeup(q, steps, id);
    if AtRest(q') {
      if Work(q') > 0 {
        var s := WorkCanGoOn(q');
        assert false;
      }
      DrainedOwesNothing(q', id);
    }
  }

  // ---------- when a wedge can be reached ----------

  ghost predicate CanWedge(capacity: nat, workers: nat, maxRetries: nat, ids: set<Id>) {
    exists steps: seq<Step> ::
      && (forall i :: 0 <= i < |steps| ==> Asks(steps[i], ids))
      && Run(NewQueue(capacity, workers, maxRetries), steps).Some?
      && Wedged(Run(NewQueue(capacity, workers, maxRetries), steps).value)
  }

  /** A run over `ids` that reaches `q`. */
  ghost predicate Reaches(start: Queue, steps: seq<Step>, ids: set<Id>, q: Queue) {
    (forall i :: 0 <= i < |steps| ==> Asks(steps[i], ids)) && Run(start, steps) == Some(q)
  }

  lemma OneMore(start: Queue, steps: seq<Step>, ids: set<Id>, q: Queue, s: Step)
    requires Reaches(start, steps, ids, q) && Enabled(q, s) && Asks(s, ids)
    ensures Reaches(start, steps + [s], ids, Next(q, s))
  {
    hide Next, Enabled, Asks;
    assert (steps + [s])[..|steps|] == steps;
  }

  /** Workers busy with the dirty IDs `busy`, workers sending back `back`, and `queued` in the channel; nothing else. */
  predicate Stage(q: Queue, busy: set<Id>, back: set<Id>, queued: set<Id>) {
    && q.inFlight == multiset(busy) && q.requeueing == multiset(back) && |q.channel| == |queued|
    && q.dirty == busy && q.pending == busy + back + queued
    && |q.pushing| == 0 && |q.dropping| == 0 && |q.scheduling| == 0 && |q.timers| == 0
  }

  /** One more ID in the channel. */
  lemma Fill(start: Queue, steps: seq<Step>, ids: set<Id>, q: Queue, busy: set<Id>, queued: set<Id>, x: Id)
    returns (steps': seq<Step>, q': Queue)
    requires Reaches(start, steps, ids, q) && Stage(q, busy, {}, queued) && x in ids && x !in busy + queued && x != NO_ID
    requires |queued| < q.capacity
    ensures Reaches(start, steps', ids, q') && Stage(q', busy, {}, queued + {x})
    ensures q'.channel == q.channel + [x] && q'.capacity == q.capacity && q'.workers == q.workers
  {
    hide Run, Reaches;
    OneMore(start, steps, ids, q, Enqueue(x));
    var q1 := Next(q, Enqueue(x));
    OneMore(start, steps + [Enqueue(x)], ids, q1, Push(x));
    q' := Next(q1, Push(x));
    steps' := steps + [Enqueue(x)] + [Push(x)];
  }

  /** Enqueue, receive and enqueue again: one more worker is busy with a dirty ID. */
  lemma Occupy(start: Queue, steps: seq<Step>, ids: set<Id>, q: Queue, busy: set<Id>, x: Id)
    returns (steps': seq<Step>, q': Queue)
    requires Reaches(start, steps, ids, q) && Stage(q, busy, {}, {}) && x in ids && x !in busy && x != NO_ID
    requires q.capacity > 0 && |busy| < q.workers
    ensures Reaches(start, steps', ids, q') && Stage(q', busy + {x}, {}, {})
    ensures q'.capacity == q.capacity && q'.workers == q.workers
  {
    hide Run, Reaches, With, Without;
    var filled, q1 := Fill(start, steps, ids, q, busy, {}, x);
    assert q1.channel == [x];
    OneMore(start, filled, ids, q1, Receive);
    var q2 := Next(q1, Receive);
    assert q2.inFlight == multiset(busy + {x});
    OneMore(start, filled + [Receive], ids, q2, Enqueue(x));
    q' := Next(q2, Enqueue(x));
    steps' := filled + [Receive] + [Enqueue(x)];
  }

  /** One worker finishes and finds the dirty mark. */
  lemma Return(start: Queue, steps: seq<Step>, ids: set<Id>, q: Queue, busy: set<Id>, back: set<Id>, queued: set<Id>, x: Id)
    returns (steps': seq<Step>, q': Queue)
    requires Reaches(start, steps, ids, q) && Stage(q, busy, back, queued) && x in busy && x !in back
    ensures Reaches(start, steps', ids, q') && Stage(q', busy - {x}, back + {x}, queued)
    ensures q'.capacity == q.capacity && q'.workers == q.workers
  {
    hide Run, Reaches;
    OneMore(start, steps, ids, q, Succeed(x));
    q' := Next(q, Succeed(x));
    steps' := steps + [Succeed(x)];
    assert q'.inFlight == multiset(busy - {x});
    assert q'.requeueing == multiset(back + {x});
  }

  /** There is an ID left to use. */
  lemma Unused(ids: set<Id>, used: set<Id>) returns (x: Id)
    requires used <= ids && |used| < |ids|
    ensures x in ids && x !in used
  {
    assert |ids - used| == |ids| - |used|;
    x :| x in ids - used;
  }

  lemma OccupyAll(start: Queue, ids: set<Id>) returns (steps: seq<Step>, q: Queue, busy: set<Id>)
    requires Stage(start, {}, {}, {}) && start.capacity > 0 && NO_ID !in ids && |ids| >= start.workers
    ensures Reaches(start, steps, ids, q) && Stage(q, busy, {}, {}) && busy <= ids && |busy| == start.workers
    ensures q.capacity == start.capacity && q.workers == start.workers
  {
    hide Stage;
    steps, q, busy := [], start, {};
    while |busy| < start.workers
      invariant Reaches(start, steps, ids, q) && Stage(q, busy, {}, {}) && busy <= ids && |busy| <= start.workers
      invariant q.capacity == start.capacity && q.workers == start.workers
      decreases start.workers - |busy|
    {
      var x := Unused(ids, busy);
      steps, q := Occupy(start, steps, ids, q, busy, x);
      busy := busy + {x};
    }
  }

  lemma FillAll(start: Queue, steps: seq<Step>, ids: set<Id>, q: Queue, busy: set<Id>)
    returns (steps': seq<Step>, q': Queue, queued: set<Id>)
    requires Reaches(start, steps, ids, q) && Stage(q, busy, {}, {}) && NO_ID !in ids && busy <= ids
    requires |ids| >= q.capacity + |busy|
    ensures Reaches(start, steps', ids, q') && Stage(q', busy, {}, queued) && |queued| == q.capacity
    ensures q'.capacity == q.capacity && q'.workers == q.workers
  {
    hide Stage, Reaches;
    steps', q', queued := steps, q, {};
    while |queued| < q.capacity
      invariant Reaches(start, steps', ids, q') && Stage(q', busy, {}, queued) && |queued| <= q.capacity
      invariant queued <= ids && busy !! queued
      invariant q'.capacity == q.capacity && q'.workers == q.workers
      decreases q.capacity - |queued|
    {
      var x := Unused(ids, busy + queued);
      steps', q' := Fill(start, steps', ids, q', busy, queued, x);
      queued := queued + {x};
    }
  }

  lemma ReturnAll(start: Queue, steps: seq<Step>, ids: set<Id>, q: Queue, busy: set<Id>, queued: set<Id>)
    returns (steps': seq<Step>, q': Queue)
    requires Reaches(start, steps, ids, q) && Stage(q, busy, {}, queued)
    ensures Reaches(start, steps', ids, q') && Stage(q', {}, busy, queued)
    ensures q'.capacity == q.capacity && q'.workers == q.workers
  {
    hide Stage, Reaches;
    var left, back: set<Id> := busy, {};
    steps', q' := steps, q;
    while left != {}
      invariant Reaches(start, steps', ids, q') && Stage(q', left, back, queued) && left !! back && left + back == busy
      invariant q'.capacity == q.capacity && q'.workers == q.workers
      decreases left
    {
      var x :| x in left;
      steps', q' := Return(start, steps', ids, q', left, back, queued, x);
      left, back := left - {x}, back + {x};
    }
    assert back == busy;
  }

  /** Occupy every worker with an ID that is enqueued again, fill the channel, and let the workers finish. */
  lemma WedgeHappens(capacity: nat, workers: nat, maxRetries: nat, ids: set<Id>) returns (steps: seq<Step>, q: Queue)
    requires capacity > 0 && NO_ID !in ids && |ids| >= capacity + workers
    ensures Reaches(NewQueue(capacity, workers, maxRetries), steps, ids, q) && Wedged(q)
  {
    hide Reaches;
    var start := NewQueue(capacity, workers, maxRetries);
    var busy, queued;
    steps, q, busy := OccupyAll(start, ids);
    steps, q, queued := FillAll(start, steps, ids, q, busy);
    steps, q := ReturnAll(start, steps, ids, q, busy, queued);
  }

  /** The queue of a new controller can wedge on requests for `ids` exactly when these are at least as many as the channel
      and the workers hold together. */
  lemma WedgeExactly(capacity: nat, workers: nat, maxRetries: nat, ids: set<Id>)
    requires capacity > 0
    ensures CanWedge(capacity, workers, maxRetries, ids) <==> |ids - {NO_ID}| >= capacity + workers
  {
    hide Next, Wedged, Enabled;
    var start := NewQueue(capacity, workers, maxRetries);
    var named := ids - {NO_ID};
    if |named| >= capacity + workers {
      var steps, q := WedgeHappens(capacity, workers, maxRetries, named);
      assert forall i :: 0 <= i < |steps| ==> Asks(steps[i], named) && Asks(steps[i], ids);
    } else {
      forall steps: seq<Step> | (forall i :: 0 <= i < |steps| ==> Asks(steps[i], ids)) && Run(start, steps).Some?
        ensures !Wedged(Run(start, steps).value)
      {
        assert forall i :: 0 <= i < |steps| ==> Asks(steps[i], ids) && Asks(steps[i], named);
        NewTokens(start);
        RunWithin(start, steps, named);
        TooFewToWedge(Run(start, steps).value, named);
      }
    }
  }

  lemma NewTokens(q: Queue)
    requires q == NewQueue(q.capacity, q.workers, q.maxRetries)
    ensures AllTokens(q) && Within(q, {}) && Busy(q) == 0
  {
  }

  // ---------- the controller object ----------

  /** The fields the source updates under `mu`, and its channel. `model` adds the positions of the running threads;
      `Valid` says that the fields are those of the model. */
  class Controller {
    const capacity: nat
    const workers: nat
    const maxRetries: nat
    var channel: seq<Id>
    var pending: set<Id>
    var dirty: set<Id>
    var retries: map<Id, nat>
    ghost var model: Queue

    ghost predicate Valid()
      reads this
    {
      && model.capacity == capacity && model.workers == workers && model.maxRetries == maxRetries
      && model.channel == channel && model.pending == pending && model.dirty == dirty && model.retries == retries
    }

    constructor ()
      ensures Valid() && model == NewQueue(1024, 2, 5)
    {
      capacity, workers, maxRetries := 1024, 2, 5;
      channel, pending, dirty, retries := [], {}, {}, map[];
      model := NewQueue(1024, 2, 5);
    }

    /** The first lock section of Enqueue. */
    method MarkPending(id: Id) returns (push: bool)
      requires Valid()
      modifies this
      ensures Valid() && model == Next(old(model), Enqueue(id))
      ensures push <==> id != NO_ID && id !in old(pending)
    {
      model := Next(model, Enqueue(id));
      if id == NO_ID {
        return false;
      }
      if id in pending {
        dirty := dirty + {id};
        return false;
      }
      pending := pending + {id};
      return true;
    }

    /** The non-blocking send of Enqueue. */
    method TrySend(id: Id) returns (sent: bool)
      requires Valid() && id in model.pushing
      modifies this
      ensures sent <==> |old(channel)| < capacity
      ensures Valid() && model == Next(old(model), if sent then Push(id) else Overflow(id))
    {
      sent := |channel| < capacity;
      model := Next(model, if sent then Push(id) else Overflow(id));
      if sent {
        channel := channel + [id];
      }
    }

    /** The lock section of Enqueue after a full channel. */
    method Forget(id: Id)
      requires Valid() && id in model.dropping
      modifies this
      ensures Valid() && model == Next(old(model), Drop(id))
    {
      model := Next(model, Drop(id));
      pending, dirty := pending - {id}, dirty - {id};
    }

    /** A free worker receives the next ID; its reconcile starts. */
    method Take() returns (id: Id)
      requires Valid() && channel != [] && Busy(model) < workers
      modifies this
      ensures id == old(channel[0]) && Valid() && model == Next(old(model), Step.Receive)
    {
      id := channel[0];
      model := Next(model, Step.Receive);
      channel := channel[1..];
    }

    /** The worker's lock section after a successful reconcile; a dirty ID has to be sent back. */
    method SettleDone(id: Id) returns (sendBack: bool)
      requires Valid() && id in model.inFlight
      modifies this
      ensures Valid() && model == Next(old(model), Succeed(id)) && sendBack == (id in old(dirty))
    {
      model := Next(model, Succeed(id));
      retries := retries - {id};
      if id in dirty {
        dirty := dirty - {id};
        return true;
      }
      pending := pending - {id};
      return false;
    }

    /** The worker's lock section after a failed reconcile: retry, or give up when the budget is spent. */
    method SettleFailed(id: Id) returns (attempt: nat, retry: bool)
      requires Valid() && id in model.inFlight
      modifies this
      ensures Valid() && model == Next(old(model), Fail(id))
      ensures attempt == Attempts(old(model), id) + 1 && retry == (attempt <= maxRetries)
    {
      hide With, Without;
      model := Next(model, Fail(id));
      pending, dirty := pending - {id}, dirty - {id};
      attempt := (if id in retries then retries[id] else 0) + 1;
      retries := retries[id := attempt];
      retry := attempt <= maxRetries;
    }

    /** The blocking send of a worker that found the dirty mark, once there is room. */
    method SendBack(id: Id)
      requires Valid() && id in model.requeueing && |channel| < capacity
      modifies this
      ensures Valid() && model == Next(old(model), Requeue(id))
    {
      model := Next(model, Requeue(id));
      channel := channel + [id];
    }
  }
}
