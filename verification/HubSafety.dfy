/**
 Safety of the terminal hub over whole runs: PTY calls never overlap each other or a hand-over of control.
 */
module HubSafety {
  import opened Prelude
  import opened Replay
  import opened TerminalHub
  import opened HubInvariants
  import opened HubRuns
  import HubLeases

  // ---------- PTY calls and grants ----------

  predicate ClosedBetween(log: seq<Event>, i: int, j: int)
    requires 0 <= i <= j <= |log|
  {
    exists k :: i < k < j && log[k].Closed?
  }

  /** The event belongs to the call that `call` opened. */
  predicate OwnCall(call: Event, e: Event) {
    && call.Opened?
    && (e.PtyBegin? || e.PtyEnd? || e.Closed?)
    && e.thread == call.thread && e.attachment == call.attachment
  }

  /** From an authorisation to the end of its call the log holds that call's own events only. */
  predicate Exclusive(log: seq<Event>) {
    forall i, j :: 0 <= i < j < |log| && log[i].Opened? && !ClosedBetween(log, i, j) ==> OwnCall(log[i], log[j])
  }

  /** Every PTY event lies in an authorised call of its own attachment. */
  predicate PtyWithinCalls(log: seq<Event>) {
    forall j :: 0 <= j < |log| && (log[j].PtyBegin? || log[j].PtyEnd?) ==>
      exists i :: 0 <= i < j && !ClosedBetween(log, i, j) && OwnCall(log[i], log[j])
  }

  predicate AllClosed(log: seq<Event>, n: int)
    requires n <= |log|
  {
    forall i :: 0 <= i < n && log[i].Opened? ==> ClosedBetween(log, i, n)
  }

  predicate CallOpen(s: Sys) {
    s.control.Some? && s.control.value.stage != Locked
  }

  /** The grants in the log. */
  function GrantsOf(log: seq<Event>): seq<GrantRecord> {
    if log == [] then []
    else
      var e := log[|log| - 1];
      GrantsOf(log[..|log| - 1]) + if e.Granted? then [e.record] else []
  }

  lemma {:induction false} GrantsConcat(log: seq<Event>, more: seq<Event>)
    ensures GrantsOf(log + more) == GrantsOf(log) + GrantsOf(more)
  {
    if more == [] {
      assert log + more == log;
    } else {
      GrantsConcat(log, more[..|more| - 1]);
      assert (log + more)[..|log + more| - 1] == log + more[..|more| - 1];
    }
  }

  lemma NoGrants(events: seq<Event>)
    requires forall e <- events :: !e.Granted?
    ensures GrantsOf(events) == []
  {
  }

  lemma OneGrant(record: GrantRecord)
    ensures GrantsOf([Granted(record)]) == [record]
  {
    assert [Granted(record)][..0] == [];
  }

  /** Every grant of the hub, and nothing else, is in the log as a grant. */
  lemma NextGrantsLogged(s: Sys, step: Step)
    requires s.hub.registered <= s.hub.subs.Keys && GrantsOf(s.log) == s.hub.grants && Next(s, step).Some?
    ensures GrantsOf(Next(s, step).value.log) == Next(s, step).value.hub.grants
  {
    hide GrantsOf, MuStep, ControlStep, PtyStep;
    if MuStep(s, step).Some? {
      MuGrants(s, step);
    } else if ControlStep(s, step).Some? {
      ControlGrants(s, step);
    } else {
      PtyGrants(s, step);
    }
  }

  lemma MuGrants(s: Sys, step: Step)
    requires s.hub.registered <= s.hub.subs.Keys && MuStep(s, step).Some?
    ensures MuStep(s, step).value.hub.grants == s.hub.grants && MuStep(s, step).value.log == s.log
  {
    hide Append, HubLeases.SameLease;
    HubLeases.MuStepKept(s, step);
  }

  lemma ControlGrants(s: Sys, step: Step)
    requires s.hub.registered <= s.hub.subs.Keys && GrantsOf(s.log) == s.hub.grants && ControlStep(s, step).Some?
    ensures GrantsOf(ControlStep(s, step).value.log) == ControlStep(s, step).value.hub.grants
  {
    hide GrantsOf, Attach, Takeover, PublishExit, Expire, Detach, AttachRefusal;
    var s' := ControlStep(s, step).value;
    assert s.log + [] == s.log;
    match step
    case DoAttach(now, id, lease, resizeOk) =>
      var r := s.control.value.op.request;
      var resized := AttachEvents(s.hub, r, now, resizeOk);
      HubLeases.AttachEvolves(s.hub, r, now, id, lease, resizeOk);
      NoGrants(resized);
      GrantsConcat(s.log, resized);
      assert s'.log == (s.log + resized) + NewGrants(s.hub, s'.hub);
      GrantLogged(s.log + resized, s.hub, s'.hub);
    case DoTakeover(now, lease) =>
      HubLeases.TakeoverEvolves(s.hub, s.control.value.op.id, lease, now);
      GrantLogged(s.log, s.hub, s'.hub);
    case DoExit => HubLeases.PublishExitKept(s.hub, s.control.value.op.status);
    case DoReap(now) => HubLeases.ExpireKept(s.hub, now);
    case DoDetach => HubLeases.DetachKept(s.hub, s.control.value.op.id);
    case DoAcquire(_, _) =>
  }

  lemma GrantLogged(log: seq<Event>, h: HubState, h': HubState)
    requires GrantsOf(log) == h.grants && HubLeases.Evolves(h, h')
    ensures GrantsOf(log + NewGrants(h, h')) == h'.grants
  {
    hide GrantsOf;
    GrantsConcat(log, NewGrants(h, h'));
    if |h'.grants| > |h.grants| {
      OneGrant(h'.grants[|h.grants|]);
      assert h'.grants == h'.grants[..|h.grants|] + [h'.grants[|h.grants|]];
    } else {
      NoGrants([]);
    }
  }

  lemma PtyGrants(s: Sys, step: Step)
    requires s.hub.registered <= s.hub.subs.Keys && GrantsOf(s.log) == s.hub.grants && PtyStep(s, step).Some?
    ensures PtyStep(s, step).value.hub.grants == s.hub.grants
    ensures GrantsOf(PtyStep(s, step).value.log) == s.hub.grants
  {
    hide GrantsOf, Expire;
    var s' := PtyStep(s, step).value;
    if step.DoAuthorize? {
      HubLeases.ExpireKept(s.hub, step.now);
    }
    var more := s'.log[|s.log|..];
    assert s'.log == s.log + more;
    NoGrants(more);
    GrantsConcat(s.log, more);
  }

  /** The log agrees with the holder of controlMu about which call is open. */
  predicate CallsMatch(s: Sys) {
    && Exclusive(s.log)
    && PtyWithinCalls(s.log)
    && (!CallOpen(s) ==> AllClosed(s.log, |s.log|))
    && (CallOpen(s) ==>
          var c := s.control.value;
          && PtyOp(c.op)
          && c.openedAt < |s.log|
          && s.log[c.openedAt] == Opened(c.thread, c.op.id)
          && AllClosed(s.log, c.openedAt)
          && forall k :: c.openedAt < k < |s.log| ==> !s.log[k].Closed?)
  }

  /** ... and with the hub about who was granted control. */
  predicate LogMatches(s: Sys) { CallsMatch(s) && GrantsOf(s.log) == s.hub.grants }

  lemma ClosedBetweenExtends(log: seq<Event>, more: seq<Event>, i: int, j: int)
    requires 0 <= i <= j <= |log|
    ensures ClosedBetween(log + more, i, j) <==> ClosedBetween(log, i, j)
  {
    if ClosedBetween(log, i, j) {
      var k :| i < k < j && log[k].Closed?;
      assert (log + more)[k].Closed?;
    }
    if ClosedBetween(log + more, i, j) {
      var k :| i < k < j && (log + more)[k].Closed?;
      assert log[k].Closed?;
    }
  }

  /** Adding one event while nothing is open: anything but a PTY event may happen. */
  lemma AppendIdle(log: seq<Event>, e: Event)
    requires Exclusive(log) && PtyWithinCalls(log) && AllClosed(log, |log|)
    requires e.Granted? || e.AttachResize? || e.Opened?
    ensures Exclusive(log + [e]) && PtyWithinCalls(log + [e])
    ensures !e.Opened? ==> AllClosed(log + [e], |log| + 1)
    ensures AllClosed(log + [e], |log|)
  {
    var log' := log + [e];
    forall i, j | 0 <= i <= j <= |log|
      ensures ClosedBetween(log', i, j) <==> ClosedBetween(log, i, j)
    {
      ClosedBetweenExtends(log, [e], i, j);
    }
    forall i, j | 0 <= i < j < |log'| && log'[i].Opened? && !ClosedBetween(log', i, j)
      ensures OwnCall(log'[i], log'[j])
    {
      if j < |log| {
        assert OwnCall(log[i], log[j]);
      } else {
        assert false;
      }
    }
    forall i | 0 <= i < |log'| && log'[i].Opened? && i < |log|
      ensures ClosedBetween(log', i, |log|) && ClosedBetween(log', i, |log| + 1)
    {
      var k :| i < k < |log| && log[k].Closed?;
      assert log'[k].Closed?;
    }
    forall j | 0 <= j < |log'| && (log'[j].PtyBegin? || log'[j].PtyEnd?)
      ensures exists i :: 0 <= i < j && !ClosedBetween(log', i, j) && OwnCall(log'[i], log'[j])
    {
      var i :| 0 <= i < j && !ClosedBetween(log, i, j) && OwnCall(log[i], log[j]);
      assert OwnCall(log'[i], log'[j]);
    }
  }

  /** Adding an event of the open call. */
  lemma AppendOwn(log: seq<Event>, at: nat, e: Event)
    requires Exclusive(log) && PtyWithinCalls(log) && at < |log| && AllClosed(log, at)
    requires forall k :: at < k < |log| ==> !log[k].Closed?
    requires OwnCall(log[at], e)
    ensures Exclusive(log + [e]) && PtyWithinCalls(log + [e])
    ensures AllClosed(log + [e], at)
    ensures e.Closed? ==> AllClosed(log + [e], |log| + 1)
  {
    var log' := log + [e];
    forall i, j | 0 <= i <= j <= |log|
      ensures ClosedBetween(log', i, j) <==> ClosedBetween(log, i, j)
    {
      ClosedBetweenExtends(log, [e], i, j);
    }
    assert !ClosedBetween(log, at, |log|);
    forall i | at < i < |log|
      ensures !log[i].Opened?
    {
      assert !ClosedBetween(log, at, i);
    }
    forall i | 0 <= i < |log| && log[i].Opened?
      ensures i == at || ClosedBetween(log', i, |log|)
    {
      if i < at {
        var k :| i < k < at && log[k].Closed?;
        assert log'[k].Closed?;
      }
    }
    forall i, j | 0 <= i < j < |log'| && log'[i].Opened? && !ClosedBetween(log', i, j)
      ensures OwnCall(log'[i], log'[j])
    {
      if j < |log| {
        assert OwnCall(log[i], log[j]);
      } else {
        assert i == at;
      }
    }
    forall j | 0 <= j < |log'| && (log'[j].PtyBegin? || log'[j].PtyEnd?)
      ensures exists i :: 0 <= i < j && !ClosedBetween(log', i, j) && OwnCall(log'[i], log'[j])
    {
      if j < |log| {
        var i :| 0 <= i < j && !ClosedBetween(log, i, j) && OwnCall(log[i], log[j]);
        assert OwnCall(log'[i], log'[j]);
      } else {
        assert !ClosedBetween(log', at, j) && OwnCall(log'[at], log'[j]);
      }
    }
    if e.Closed? {
      forall i | 0 <= i < |log'| && log'[i].Opened?
        ensures ClosedBetween(log', i, |log'|)
      {
        assert i < |log| ==> log'[|log|].Closed?;
      }
    }
  }

  /** The log discipline survives every step. */
  lemma NextCallsMatch(s: Sys, step: Step)
    requires s.hub.registered <= s.hub.subs.Keys && CallsMatch(s) && Next(s, step).Some?
    ensures CallsMatch(Next(s, step).value)
  {
    hide Exclusive, PtyWithinCalls, AllClosed, PublishOutput, Reply, Touch, Take, AckSection, SetProcess;
    if MuStep(s, step).Some? {
    } else if ControlStep(s, step).Some? {
      ControlCallsMatch(s, step);
    } else {
      PtyCallsMatch(s, step);
    }
  }

  lemma IdleEvents(log: seq<Event>, sized: bool, granted: seq<Event>)
    requires Exclusive(log) && PtyWithinCalls(log) && AllClosed(log, |log|)
    requires |granted| <= 1 && forall e <- granted :: e.Granted?
    ensures
      var log' := log + ((if sized then [AttachResize] else []) + granted);
      Exclusive(log') && PtyWithinCalls(log') && AllClosed(log', |log'|)
  {
    hide Exclusive, PtyWithinCalls, AllClosed;
    var log1 := if sized then log + [AttachResize] else log;
    AppendIdle(log, AttachResize);
    if granted == [] {
      assert log + ((if sized then [AttachResize] else []) + granted) == log1;
    } else {
      assert granted == [granted[0]];
      AppendIdle(log1, granted[0]);
      assert log + ((if sized then [AttachResize] else []) + granted) == log1 + [granted[0]];
    }
  }

  lemma ControlCallsMatch(s: Sys, step: Step)
    requires s.hub.registered <= s.hub.subs.Keys && CallsMatch(s) && ControlStep(s, step).Some?
    ensures CallsMatch(ControlStep(s, step).value)
  {
    hide Exclusive, PtyWithinCalls, AllClosed, Attach, Takeover, Detach, PublishExit, Expire, AttachRefusal;
    var s' := ControlStep(s, step).value;
    assert s.log + [] == s.log;
    match step
    case DoAttach(now, id, lease, resizeOk) =>
      var r := s.control.value.op.request;
      var events := AttachEvents(s.hub, r, now, resizeOk);
      var granted := NewGrants(s.hub, s'.hub);
      IdleEvents(s.log, events != [], granted);
      assert (if events != [] then [AttachResize] else []) == events;
    case DoTakeover(now, lease) =>
      var granted := NewGrants(s.hub, s'.hub);
      IdleEvents(s.log, false, granted);
      assert [] + granted == granted;
    case _ =>
  }

  lemma PtyCallsMatch(s: Sys, step: Step)
    requires s.hub.registered <= s.hub.subs.Keys && CallsMatch(s) && PtyStep(s, step).Some?
    ensures CallsMatch(PtyStep(s, step).value)
  {
    hide Exclusive, PtyWithinCalls, AllClosed, Expire, Renew;
    var c := s.control.value;
    match step
    case DoAuthorize(now) =>
      AppendIdle(s.log, Opened(c.thread, c.op.id));
      assert s.log + [] == s.log;
    case DoPtyBegin => AppendOwn(s.log, c.openedAt, PtyBegin(c.thread, c.op.id));
    case DoPtyEnd(ok) =>
      var e, f := PtyEnd(c.thread, c.op.id, ok), Closed(c.thread, c.op.id);
      AppendOwn(s.log, c.openedAt, e);
      AppendOwn(s.log + [e], c.openedAt, f);
      assert s.log + [e, f] == s.log + [e] + [f];
    case DoRenew(now) => AppendOwn(s.log, c.openedAt, Closed(c.thread, c.op.id));
  }

  /** In every run: the log holds every grant of the hub in order, and from the authorisation of an input or resize to the end
      of its call it holds no grant, no other authorisation, and only that attachment's own PTY call. */
  lemma {:induction false} PtyCallsAreExclusive(s: Sys, steps: seq<Step>)
    requires Inv(s.hub) && LogMatches(s) && Run(s, steps).Some?
    ensures LogMatches(Run(s, steps).value)
    ensures Exclusive(Run(s, steps).value.log) && PtyWithinCalls(Run(s, steps).value.log)
    ensures GrantsOf(Run(s, steps).value.log) == Run(s, steps).value.hub.grants
  {
    hide Inv, Next, Exclusive, PtyWithinCalls, GrantsOf;
    if steps == [] {
    } else {
      var before := steps[..|steps| - 1];
      PtyCallsAreExclusive(s, before);
      RunInv(s, before);
      InvWellFormed(Run(s, before).value.hub);
      NextCallsMatch(Run(s, before).value, steps[|steps| - 1]);
      NextGrantsLogged(Run(s, before).value, steps[|steps| - 1]);
    }
  }
}
