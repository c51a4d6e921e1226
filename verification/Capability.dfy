/**
 The capability verifier (internal/auth/capability.go): every capability is good for one use, although the set of used
 identifiers forgets the expired ones.
 */
module Capability {
  import opened Prelude

  const ISSUER := "sandherd-control-plane"
  const AUDIENCE := "sandherd-runner"

  datatype Claims = Claims(
    issuer: string, audience: string, subject: string, role: string, scope: string, requestId: string, tokenId: string,
    issuedAt: int, expiresAt: int)

  /** One verification, in lock order. `token` is None when the token is malformed or not signed by the control plane;
      `now` is the clock reading, taken before the lock. */
  datatype Call = Call(token: Option<Claims>, agent: string, scope: string, now: int)

  type Used = map<string, int>

  predicate Scoped(c: Claims, agent: string, scope: string) {
    && c.issuer == ISSUER && c.audience == AUDIENCE && c.subject == agent && c.requestId != "" && c.tokenId != ""
    && (c.role == "control" || c.role == "observe") && c.scope == scope
  }

  predicate Current(c: Claims, now: int) {
    c.issuedAt <= now + 30 && now < c.expiresAt && c.issuedAt < c.expiresAt
  }

  /** Everything that is checked before the lock is taken. */
  predicate Admissible(call: Call) {
    && call.agent != "" && call.scope != "" && call.token.Some?
    && Scoped(call.token.value, call.agent, call.scope) && Current(call.token.value, call.now)
  }

  function Pruned(used: Used, now: int): Used { map id | id in used && now < used[id] :: used[id] }

  predicate Accepts(used: Used, call: Call) {
    Admissible(call) && call.token.value.tokenId !in Pruned(used, call.now)
  }

  function After(used: Used, call: Call): Used {
    if !Admissible(call) then used
    else if Accepts(used, call) then Pruned(used, call.now)[call.token.value.tokenId := call.token.value.expiresAt]
    else Pruned(used, call.now)
  }

  function UsedAfter(calls: seq<Call>): Used {
    if calls == [] then map[] else After(UsedAfter(calls[..|calls| - 1]), calls[|calls| - 1])
  }

  predicate Accepted(calls: seq<Call>, i: nat)
    requires i < |calls|
  {
    Accepts(UsedAfter(calls[..i]), calls[i])
  }

  lemma OneMore(calls: seq<Call>, n: nat)
    requires n < |calls|
    ensures UsedAfter(calls[..n + 1]) == After(UsedAfter(calls[..n]), calls[n])
  {
    assert calls[..n + 1][..n] == calls[..n];
  }

  // ---------- no second use ----------

  /** The call reaches the lock with a reading at which the capability has expired. */
  predicate Forgets(call: Call, c: Claims) { Admissible(call) && c.expiresAt <= call.now }

  lemma {:induction false} Remembered(calls: seq<Call>, i: nat, j: nat)
    requires i < j <= |calls| && Accepted(calls, i)
    requires forall k :: i < k < j ==> !Forgets(calls[k], calls[i].token.value)
    ensures
      var c := calls[i].token.value;
      c.tokenId in UsedAfter(calls[..j]) && UsedAfter(calls[..j])[c.tokenId] == c.expiresAt
  {
    OneMore(calls, j - 1);
    if i == j - 1 {
    } else {
      Remembered(calls, i, j - 1);
      assert !Forgets(calls[j - 1], calls[i].token.value);
    }
  }

  /** A second acceptance needs a reading in between that is later than both. */
  lemma SecondUseNeedsPeak(calls: seq<Call>, i: nat, j: nat) returns (k: nat)
    requires i < j < |calls| && Accepted(calls, i) && Accepted(calls, j) && calls[i].token == calls[j].token
    ensures i < k < j && calls[i].now < calls[k].now && calls[j].now < calls[k].now
  {
    var c := calls[i].token.value;
    if forall m :: i < m < j ==> !Forgets(calls[m], c) {
      Remembered(calls, i, j);
      assert false;
    }
    k :| i < k < j && Forgets(calls[k], c);
  }

  function Readings(calls: seq<Call>): seq<int> { seq(|calls|, i requires 0 <= i < |calls| => calls[i].now) }

  ghost predicate UsedTwice(calls: seq<Call>) {
    exists i, j :: 0 <= i < j < |calls| && calls[i].token == calls[j].token && Accepted(calls, i) && Accepted(calls, j)
  }

  /** No reading is later than both an earlier and a later one. */
  ghost predicate PeakFree(readings: seq<int>) {
    forall i, k, j :: 0 <= i < k < j < |readings| ==> readings[k] <= readings[i] || readings[k] <= readings[j]
  }

  ghost predicate AlwaysOnce(readings: seq<int>) {
    forall calls :: Readings(calls) == readings ==> !UsedTwice(calls)
  }

  /** The clock readings, in lock order, rule out every second use exactly when they have no peak. */
  lemma OnceExactly(readings: seq<int>)
    ensures AlwaysOnce(readings) <==> PeakFree(readings)
  {
    if PeakFree(readings) {
      forall calls | Readings(calls) == readings ensures !UsedTwice(calls) {
        if UsedTwice(calls) {
          TwiceHasPeak(calls);
        }
      }
    }
    if !PeakFree(readings) {
      var i, k, j :| 0 <= i < k < j < |readings| && readings[i] < readings[k] && readings[j] < readings[k];
      var calls := PeakIsTwice(readings, i, k, j);
      assert !AlwaysOnce(readings);
    }
  }

  lemma TwiceHasPeak(calls: seq<Call>)
    requires UsedTwice(calls)
    ensures !PeakFree(Readings(calls))
  {
    var i, j :| 0 <= i < j < |calls| && calls[i].token == calls[j].token && Accepted(calls, i) && Accepted(calls, j);
    var k := SecondUseNeedsPeak(calls, i, j);
    var r := Readings(calls);
    assert r[i] < r[k] && r[j] < r[k];
  }

  /** With readings that do not go back, no capability is accepted twice. */
  lemma NoSecondUse(calls: seq<Call>)
    requires forall i, j :: 0 <= i <= j < |calls| ==> calls[i].now <= calls[j].now
    ensures !UsedTwice(calls)
  {
    if UsedTwice(calls) {
      TwiceHasPeak(calls);
    }
  }

  function Minted(id: string, issuedAt: int, expiresAt: int): Claims {
    Claims(ISSUER, AUDIENCE, "agent", "control", "terminal", "request", id, issuedAt, expiresAt)
  }

  /** For every peak there are capabilities that make it fail. */
  lemma PeakIsTwice(readings: seq<int>, i: nat, k: nat, j: nat) returns (calls: seq<Call>)
    requires i < k < j < |readings| && readings[i] < readings[k] && readings[j] < readings[k]
    ensures Readings(calls) == readings && UsedTwice(calls)
  {
    hide UsedAfter, UsedTwice;
    var first := if readings[i] < readings[j] then readings[i] else readings[j];
    var c := Minted("a", first, readings[k]);
    var d := Minted("b", readings[k], readings[k] + 1);
    calls := seq(|readings|, m requires 0 <= m < |readings| =>
      Call(if m == i || m == j then Some(c) else if m == k then Some(d) else None, "agent", "terminal", readings[m]));
    ForgottenIsTwice(calls, i, k, j);
  }

  lemma ForgottenIsTwice(calls: seq<Call>, i: nat, k: nat, j: nat)
    requires i < k < j < |calls| && forall m :: 0 <= m < |calls| && m !in {i, k, j} ==> calls[m].token.None?
    requires Admissible(calls[i]) && Admissible(calls[k]) && Admissible(calls[j])
    requires calls[i].token == calls[j].token && calls[i].token.value.tokenId != calls[k].token.value.tokenId
    requires calls[i].token.value.expiresAt <= calls[k].now
    ensures UsedTwice(calls)
  {
    hide After, Accepts, UsedAfter, Scoped, Current;
    var c := calls[i].token.value;
    Idle(calls, 0, i);
    NothingUsed(calls);
    OneMore(calls, i);
    FirstUse(map[], calls[i]);
    Idle(calls, i + 1, k);
    OneMore(calls, k);
    ForgetsOld(c.tokenId, c.expiresAt, calls[k]);
    Idle(calls, k + 1, j);
    FirstUse(UsedAfter(calls[..j]), calls[j]);
    assert Accepted(calls, i) && Accepted(calls, j);
  }

  lemma NothingUsed(calls: seq<Call>)
    ensures UsedAfter(calls[..0]) == map[]
  {
  }

  lemma FirstUse(used: Used, call: Call)
    requires Admissible(call) && call.token.value.tokenId !in used
    ensures Accepts(used, call)
    ensures used == map[] ==> After(used, call) == map[call.token.value.tokenId := call.token.value.expiresAt]
  {
  }

  lemma ForgetsOld(id: string, expiresAt: int, call: Call)
    requires Admissible(call) && call.token.value.tokenId != id && expiresAt <= call.now
    ensures After(map[id := expiresAt], call) == map[call.token.value.tokenId := call.token.value.expiresAt]
  {
  }

  lemma {:induction false} Idle(calls: seq<Call>, from: nat, to: nat)
    requires from <= to <= |calls| && forall m :: from <= m < to ==> calls[m].token.None?
    ensures UsedAfter(calls[..to]) == UsedAfter(calls[..from])
  {
    if from == to {
    } else {
      Idle(calls, from, to - 1);
      OneMore(calls, to - 1);
    }
  }

  // ---------- what is remembered ----------

  ghost predicate InOrder(calls: seq<Call>) {
    forall i, j :: 0 <= i <= j < |calls| ==> calls[i].now <= calls[j].now
  }

  /** An accepted capability of that identifier, still alive at that time. */
  ghost predicate Alive(calls: seq<Call>, n: nat, id: string, expiresAt: int, now: int)
    requires n <= |calls|
  {
    now < expiresAt &&
    exists i :: 0 <= i < n && Accepted(calls, i) && calls[i].token.value.tokenId == id && calls[i].token.value.expiresAt == expiresAt
  }

  ghost predicate Holds(used: Used, id: string, expiresAt: int) { id in used && used[id] == expiresAt }

  lemma {:induction false} AliveIsHeld(calls: seq<Call>, n: nat, id: string, expiresAt: int, now: int)
    requires InOrder(calls) && n <= |calls| && Alive(calls, n, id, expiresAt, now)
    requires forall m :: 0 <= m < n ==> calls[m].now <= now
    ensures Holds(UsedAfter(calls[..n]), id, expiresAt)
  {
    var i :| 0 <= i < n && Accepted(calls, i) && calls[i].token.value.tokenId == id && calls[i].token.value.expiresAt == expiresAt;
    Remembered(calls, i, n);
  }

  lemma {:induction false} HeldWasAccepted(calls: seq<Call>, n: nat, id: string)
    requires n <= |calls| && id in UsedAfter(calls[..n])
    ensures exists i :: 0 <= i < n && Accepted(calls, i) && calls[i].token.value.tokenId == id &&
                        calls[i].token.value.expiresAt == UsedAfter(calls[..n])[id]
  {
    if n == 0 {
    } else {
      OneMore(calls, n - 1);
      var before := UsedAfter(calls[..n - 1]);
      if Accepts(before, calls[n - 1]) && calls[n - 1].token.value.tokenId == id {
        assert Accepted(calls, n - 1);
      } else {
        HeldWasAccepted(calls, n - 1, id);
      }
    }
  }

  /** After every call that got as far as the lock, the set holds exactly the accepted capabilities that are alive. */
  lemma UsedIsExactlyAlive(calls: seq<Call>, n: nat, id: string, expiresAt: int)
    requires InOrder(calls) && 0 < n <= |calls| && Admissible(calls[n - 1])
    ensures Holds(UsedAfter(calls[..n]), id, expiresAt) <==> Alive(calls, n, id, expiresAt, calls[n - 1].now)
  {
    if Alive(calls, n, id, expiresAt, calls[n - 1].now) {
      AliveIsHeld(calls, n, id, expiresAt, calls[n - 1].now);
    }
    if Holds(UsedAfter(calls[..n]), id, expiresAt) {
      HeldWasAccepted(calls, n, id);
      OneMore(calls, n - 1);
    }
  }

  /** A call is accepted exactly when it is admissible and no accepted capability of that identifier is alive. */
  lemma AcceptedExactly(calls: seq<Call>, n: nat)
    requires InOrder(calls) && n < |calls|
    ensures Accepted(calls, n) <==>
      Admissible(calls[n]) && forall expiresAt :: !Alive(calls, n, calls[n].token.value.tokenId, expiresAt, calls[n].now)
  {
    if Admissible(calls[n]) {
      var id := calls[n].token.value.tokenId;
      var used := UsedAfter(calls[..n]);
      if id in Pruned(used, calls[n].now) {
        HeldWasAccepted(calls, n, id);
        assert Alive(calls, n, id, used[id], calls[n].now);
      }
      forall expiresAt | Alive(calls, n, id, expiresAt, calls[n].now) ensures id in Pruned(used, calls[n].now) {
        AliveIsHeld(calls, n, id, expiresAt, calls[n].now);
      }
    }
  }

  // ---------- minting ----------

  const SECOND := 1_000_000_000

  /** Signer.Mint at a clock in nanoseconds; `ttl` is positive and `id` is random. A refusal is an error of the caller. */
  function Mint(agent: string, role: string, requestId: string, id: string, clock: nat, ttl: nat): Option<Claims> {
    if agent == "" || requestId == "" || (role != "control" && role != "observe") then None
    else Some(Claims(ISSUER, AUDIENCE, agent, role, "terminal", requestId, id, clock / SECOND, (clock + ttl) / SECOND))
  }

  /** A minted capability is accepted exactly for its agent and the terminal scope, from thirty seconds before it was minted until
      it expires, and while it is unused; one that lives less than a second may never be. */
  lemma MintedIsAccepted(
    agent: string, role: string, requestId: string, id: string, clock: nat, ttl: nat, used: Used, subject: string, scope: string,
    now: int)
    requires Mint(agent, role, requestId, id, clock, ttl).Some? && id != ""
    ensures
      var c := Mint(agent, role, requestId, id, clock, ttl).value;
      Accepts(used, Call(Some(c), subject, scope, now)) <==>
        && subject == agent && scope == "terminal"
        && c.issuedAt - 30 <= now < c.expiresAt && c.issuedAt < c.expiresAt
        && (id in used ==> used[id] <= now)
  {
  }

  /** Who gets no capability. */
  lemma MintsExactly(agent: string, role: string, requestId: string, id: string, clock: nat, ttl: nat)
    ensures Mint(agent, role, requestId, id, clock, ttl).Some? <==>
      agent != "" && requestId != "" && (role == "control" || role == "observe")
    ensures Mint(agent, role, requestId, id, clock, ttl).Some? ==>
      Mint(agent, role, requestId, id, clock, ttl).value.role == role
  {
  }

  /** Whatever is accepted names the control plane as issuer, the runner as audience, and the agent and scope it was presented for;
      so no capability is accepted for two agents or two scopes. */
  lemma AcceptedIsScoped(used: Used, call: Call, used': Used, call': Call)
    requires Accepts(used, call)
    ensures
      var c := call.token.value;
      && c.issuer == "sandherd-control-plane" && c.audience == "sandherd-runner" && c.subject == call.agent && c.scope == call.scope
      && c.role in {"control", "observe"} && c.requestId != "" && c.tokenId != ""
      && c.issuedAt <= call.now + 30 && call.now < c.expiresAt
    ensures Accepts(used', call') && call'.token == call.token ==> call'.agent == call.agent && call'.scope == call.scope
  {
  }

  // ---------- the object ----------

  datatype Refusal = NoScope | Malformed | WrongScope | Expired | AlreadyUsed

  class Verifier {
    var used: Used

    constructor ()
      ensures used == UsedAfter([])
    {
      used := map[];
    }

    /** Drops the expired entries one by one. */
    method Prune(now: int)
      modifies this
      ensures used == Pruned(old(used), now)
    {
      var rest := used.Keys;
      while rest != {}
        invariant rest <= old(used).Keys
        invariant forall id :: id in used <==> id in old(used) && (id in rest || now < old(used)[id])
        invariant forall id :: id in used ==> used[id] == old(used)[id]
        decreases rest
      {
        var id :| id in rest;
        if used[id] <= now {
          used := used - {id};
        }
        rest := rest - {id};
      }
    }

    method VerifyFor(call: Call) returns (r: Result<Claims, Refusal>)
      modifies this
      ensures used == After(old(used), call)
      ensures r.Ok? <==> Accepts(old(used), call)
      ensures r.Ok? ==> call.token == Some(r.value)
      ensures r == Err(AlreadyUsed) <==> Admissible(call) && !Accepts(old(used), call)
      ensures r == Err(NoScope) <==> call.agent == "" || call.scope == ""
      ensures r == Err(Malformed) <==> call.agent != "" && call.scope != "" && call.token.None?
      ensures r == Err(Expired) <==>
        && call.agent != "" && call.scope != "" && call.token.Some? && Scoped(call.token.value, call.agent, call.scope)
        && !Current(call.token.value, call.now)
    {
      if call.agent == "" || call.scope == "" {
        return Err(NoScope);
      }
      if call.token.None? {
        return Err(Malformed);
      }
      var c := call.token.value;
      if !Scoped(c, call.agent, call.scope) {
        return Err(WrongScope);
      }
      if c.issuedAt > call.now + 30 || c.expiresAt <= call.now || c.expiresAt <= c.issuedAt {
        return Err(Expired);
      }
      Prune(call.now);
      if c.tokenId in used {
        return Err(AlreadyUsed);
      }
      used := used[c.tokenId := c.expiresAt];
      return Ok(c);
    }
  }
}
