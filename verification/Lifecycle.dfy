/**
 The agent record and the requests that change it (internal/lifecycle/model.go, internal/controlplane/server.go,
 internal/kubernetes/repository.go). Each request is one atomic step.
 */
module Lifecycle {
  import opened Prelude

  /** Adapter kinds, versions, profiles and pools; only equality is used. */
  type Name = nat

  datatype Desired = WantRunning | WantStopped | WantDeleted

  datatype State =
    | Requested | Provisioning | Starting | Running | Reconfiguring | Stopping | Stopped | Failed | Deleting

  /** Reason and message of a status, one constructor per pair that the source writes. */
  datatype Why =
    | Unexplained | TimedOut | AdapterMissing | ProfileMissing | SecretUnapproved | StorageUnapproved
    | PreservingWorkspace | ClaimCreated | ClaimFailed | AwaitingAssignment | AwaitingSandbox | Resuming
    | AwaitingPod | BootstrapFailed(exitCode: int) | RunnerFailed | AwaitingReadiness
    | RemovingPrevious | DrainingPrevious | ReleasingPrevious | SandboxStopping | SandboxDeleting
    | AdapterChangeRequested | RetriesExhausted

  /** The runtime that was last seen ready. */
  datatype Runtime = Runtime(generation: int, kind: Name, version: Name)

  datatype Status = Status(state: State, observed: nat, why: Why, runtime: Option<Runtime>)

  datatype Agent = Agent(
    desired: Desired, generation: nat, runtimeGeneration: int, kind: Name, credential: Option<Name>, retain: bool, status: Status)

  function NewAgent(kind: Name, credential: Option<Name>, retain: bool): Agent {
    Agent(WantRunning, 1, 1, kind, credential, retain, Status(Requested, 0, Unexplained, None))
  }

  predicate CanStop(s: State) { s == Running || s == Stopping || s == Stopped }

  predicate CanResume(s: State) { s == Stopped || s == Provisioning || s == Starting || s == Running }

  predicate CanChangeAdapter(s: State) {
    s == Requested || s == Provisioning || s == Starting || s == Running || s == Stopped || s == Failed
  }

  datatype Request = Stop | Resume | Delete | ChangeAdapter(kind: Name, credential: Option<Name>, resolves: bool)

  /** SetDesired: the spec and the transitional status. */
  function SetDesired(a: Agent, desired: Desired, state: State): Agent {
    a.(desired := desired, generation := a.generation + 1, status := a.status.(state := state, why := Unexplained))
  }

  function NextRuntimeGeneration(g: int): int { if g + 1 < 2 then 2 else g + 1 }

  /** ChangeAdapter of the repository; a stopped agent keeps its status. */
  function Rebind(a: Agent, kind: Name, credential: Option<Name>, transitional: State): Agent {
    if a.kind == kind && a.credential == credential then a
    else
      var b := a.(kind := kind, credential := credential, generation := a.generation + 1,
                  runtimeGeneration := NextRuntimeGeneration(a.runtimeGeneration));
      if transitional == Stopped then b
      else b.(status := a.status.(state := transitional, why := AdapterChangeRequested))
  }

  /** The handlers: a request that is refused or already satisfied leaves the agent alone. */
  function Handle(a: Agent, r: Request): Agent {
    var s := a.status.state;
    match r
    case Stop => if !CanStop(s) || s == Stopping || s == Stopped then a else SetDesired(a, WantStopped, Stopping)
    case Resume => if !CanResume(s) || s != Stopped then a else SetDesired(a, WantRunning, Provisioning)
    case Delete => if s == Deleting then a else SetDesired(a, WantDeleted, Deleting)
    case ChangeAdapter(kind, credential, resolves) =>
      if !resolves then a
      else if (a.kind != kind || a.credential != credential) && !CanChangeAdapter(s) then a
      else Rebind(a, kind, credential, if s == Stopped then Stopped else Reconfiguring)
  }

  datatype Refusal = InvalidTransition | AdapterRefused

  /** What the handlers answer; no refusal means that the agent is returned as accepted. */
  function Answer(a: Agent, r: Request): Option<Refusal> {
    var s := a.status.state;
    match r
    case Stop => if CanStop(s) then None else Some(InvalidTransition)
    case Resume => if CanResume(s) then None else Some(InvalidTransition)
    case Delete => None
    case ChangeAdapter(kind, credential, resolves) =>
      if !resolves then Some(AdapterRefused)
      else if (a.kind != kind || a.credential != credential) && !CanChangeAdapter(s) then Some(InvalidTransition)
      else None
  }

  /** transition: nothing is written when the status already says so. */
  function Transition(a: Agent, state: State, why: Why, runtime: Option<Runtime>): Agent {
    if a.status.state == state && a.status.why == why && a.status.observed == a.generation then a
    else a.(status := Status(state, a.generation, why, runtime))
  }

  /** markRetryExhausted. */
  function GiveUp(a: Agent): Agent {
    if a.desired == WantDeleted then a
    else a.(status := a.status.(state := Failed, why := RetriesExhausted, observed := a.generation))
  }

  /** What every request and every reconcile pass keeps true of the record. */
  predicate Coherent(a: Agent) {
    && a.runtimeGeneration >= 1
    && (a.desired == WantDeleted <==> a.status.state == Deleting)
    && (a.desired == WantRunning ==> a.status.state !in {Stopping, Stopped, Deleting})
    && (a.desired == WantStopped ==> a.status.state in {Stopping, Stopped, Failed, Reconfiguring})
    && (a.status.state == Running ==>
          a.status.runtime.Some? && a.status.runtime.value.generation == a.runtimeGeneration && a.status.runtime.value.kind == a.kind)
  }

  lemma HandleCoherent(a: Agent, r: Request)
    requires Coherent(a)
    ensures Coherent(Handle(a, r))
    ensures a.desired == WantDeleted ==> Handle(a, r) == a
    ensures Handle(a, r).retain == a.retain
  {
  }

  /** An adapter change that takes effect raises the runtime generation by exactly one; no other request touches it. */
  lemma GenerationCountsChanges(a: Agent, r: Request)
    requires Coherent(a)
    ensures Handle(a, r).runtimeGeneration ==
      a.runtimeGeneration + (if Handle(a, r).kind != a.kind || Handle(a, r).credential != a.credential then 1 else 0)
  {
  }

  /** A refused request changes nothing. */
  lemma RefusedLeaves(a: Agent, r: Request)
    requires Answer(a, r).Some?
    ensures Handle(a, r) == a
  {
  }

  /** The agent asked for that desired state and shows that state; nothing else of it changed. */
  predicate Turned(a: Agent, b: Agent, desired: Desired, state: State) {
    && b.desired == desired && b.status.state == state && b.status.why == Unexplained && b.generation == a.generation + 1
    && b == a.(desired := desired, generation := b.generation, status := a.status.(state := state, why := Unexplained))
  }

  /** Stop takes effect exactly on a running agent, and is refused exactly where nothing runs or stops. */
  lemma StopExactly(a: Agent)
    ensures if a.status.state == Running then Turned(a, Handle(a, Stop), WantStopped, Stopping) else Handle(a, Stop) == a
    ensures Answer(a, Stop).Some? <==>
      a.status.state in {Requested, Provisioning, Starting, Reconfiguring, Failed, Deleting}
  {
  }

  /** Resume takes effect exactly on a stopped agent, and is refused exactly in the listed states. */
  lemma ResumeExactly(a: Agent)
    ensures if a.status.state == Stopped then Turned(a, Handle(a, Resume), WantRunning, Provisioning) else Handle(a, Resume) == a
    ensures Answer(a, Resume).Some? <==> a.status.state in {Requested, Reconfiguring, Stopping, Failed, Deleting}
  {
  }

  /** Deletion takes effect in every state but once, and is never refused. */
  lemma DeleteExactly(a: Agent)
    ensures if a.status.state == Deleting then Handle(a, Delete) == a else Turned(a, Handle(a, Delete), WantDeleted, Deleting)
    ensures Answer(a, Delete).None?
  {
  }

  /** An adapter change takes effect exactly when the adapter resolves, the binding differs and the agent is not in the middle of
      another change, a stop or a deletion. It rebinds the agent and asks for reconfiguration, except of a stopped agent. */
  lemma ChangeExactly(a: Agent, kind: Name, credential: Option<Name>, resolves: bool)
    ensures
      var r := ChangeAdapter(kind, credential, resolves);
      var b := Handle(a, r);
      var differs := a.kind != kind || a.credential != credential;
      && (Answer(a, r) == Some(AdapterRefused) <==> !resolves)
      && (Answer(a, r) == Some(InvalidTransition) <==>
            resolves && differs && a.status.state in {Reconfiguring, Stopping, Deleting})
      && (if !resolves || !differs || a.status.state in {Reconfiguring, Stopping, Deleting} then b == a
          else
            && b.kind == kind && b.credential == credential && b.runtimeGeneration == (if a.runtimeGeneration < 1 then 2 else a.runtimeGeneration + 1)
            && b.generation == a.generation + 1 && b.desired == a.desired && b.retain == a.retain
            && (if a.status.state == Stopped then b.status == a.status
                else b.status == a.status.(state := Reconfiguring, why := AdapterChangeRequested)))
  {
  }
}
