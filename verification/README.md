# Sandherd, verified

Sandherd runs persistent agents: a control plane keeps agent records and drives a Kubernetes cluster towards them, a
runner in each sandbox shares one terminal among many attachments, and a bridge shows that terminal to a user. This
project models the parts that are concurrent or must survive crashes, and proves what they guarantee over every run.

Besides the properties of runs, the modules `HubAnswers` and `ReconcilerAnswers` and lemmas named `...Exactly` elsewhere tell what
each operation answers and leaves behind from the state before it: which refusal, who gains and loses control, which
frame reaches whom, what a pass reports.

Each part has a specification (functions on values, one per section that the program runs under a lock or as one durable
step), a state machine over all interleavings, lemmas about every run, and, where the program updates fields in place,
a class whose methods are proved to leave exactly the state the specification gives.

| part | files | main results |
|---|---|---|
| terminal hub and replay buffer | `Replay`, `TerminalHub`, `HubInvariants`, `HubRuns`, `HubSafety`, `HubLeases`, `HubLifecycle`, `HubAnswers`, `HubObject` | `Guarantees.HubGuarantee`, `HubAnswers.AcceptedWasLive`, `HubAnswers.TakeoverTakesControl`, `HubLifecycle.TakeoverLeakExactly` |
| bridge client | `StreamGrowth`, `Bridge`, `BridgeRuns` | `Guarantees.BridgeGuarantee`, `BridgeRuns.WritesCurrentOutput` |
| work queue | `WorkQueue` | `Guarantees.QueueGuarantee`, `WorkQueue.WedgeExactly`, `WorkQueue.QueueDrains` |
| workspace bootstrap | `Bootstrap` | `Bootstrap.CrashesAreRecoverable`, `Bootstrap.RunSucceedsExactly` |
| lifecycle and reconciler | `Lifecycle`, `Reconciler`, `ReconcilerAnswers`, `ReconcilerObject`, `ClusterRuns`, `Convergence`, `Arrival`, `Shutdown`, `ClusterWitnesses` | `ClusterRuns.ReplacementIsOrdered`, `ClusterRuns.OrderKeptExactly`, `Arrival.ArrivesExactly`, `ClusterRuns.WorkspaceSurvives`, `Shutdown.DeletionCleansExactly` |
| event stream | `EventBus`, `EventBusObject` | `EventBus.DeliveryIsContiguous`, `EventBus.ReconnectsExactly` |
| listing | `Listing` | `Listing.StayersComeOnce`, `Listing.WalkFromBeginning` |
| capabilities | `Capability` | `Capability.OnceExactly`, `Capability.AcceptedExactly` |

`dafny verify dfyconfig.toml` checks everything.

## What the code does not promise

Where a property fails, the model keeps the code as it is, exhibits a failing run and proves the exact condition.

- **Takeover of one's own expired lease.** If the expiry notice meets the caller's full queue, the caller is dropped and
  is then granted the lease all the same: the controller is not a registered attachment. `TakeoverLeakExactly` shows that
  this is the only case, `LeakHappens` that it occurs.
- **A wedged work queue.** A worker that finds the dirty mark blocks until the channel has room. When the channel is full and
  every worker blocks so, nobody receives any more: from then on no reconcile starts or ends in any run
  (`WedgedForever`), and what is owed a reconcile in the channel stays owed (`OwedForever`). Requests for a set of agents can
  wedge the queue if and only if there are at least as many agents as the channel and the workers hold together
  (`WedgeExactly`), 1024 + 2 in the source; below that number the queue always drains (`QueueDrains`).
- **A workspace that no run can finish.** A run for an empty workspace that crashes behind its mkdir, followed by a run
  for a repository that crashes behind writing its intent, leaves a workspace in which no later run for any repository
  ever succeeds, however often it is tried (`StuckWorkspace`). `RunSucceedsExactly` gives the disks on which a run succeeds.
- **A stale `Suspended` condition.** A replacement trusts the reported condition without looking at the requested mode.
  After stop, resume and an adapter change before the cluster clears the condition, the old pod is never drained and the
  agent is reported running at the new generation on the pod of the old one (`StaleReplacementHappens`). A pass keeps the
  order of a replacement if and only if it is not about to release a claim on a stale condition
  (`PassKeepsOrderExactly`); and every schedule makes the agent run at its current generation if and only if no outdated
  runtime has such a condition (`ArrivesExactly`).
- **Retries that run out in the middle of a replacement.** The status becomes failed, and the next pass claims a new
  runtime while the old sandbox still exists; in a cluster that gives a claim its sandbox only once the name is free, no
  schedule makes that agent run again (`ExhaustionHappens`, `BlockedForever`). Giving up keeps the order if and only if no replacement is
  under way (`ExhaustKeepsOrderExactly`).
- **Deletion in the middle of a replacement.** docs/workspaces.md:137 promises that deleting an agent that does not retain
  its workspace removes claim, sandbox, pod and volume. Every schedule of passes and cluster steps does so if and only if no
  release of the sandbox is under way and the volume hangs on the sandbox when deletion is asked for; otherwise there is
  a schedule that removes the record and leaves the volume (`DeletionCleansExactly`); an orderly run leads there
  (`StrandingHappens`).
- **A runner that was replaced.** With the cursor of an earlier runner the bridge is refused as long as that cursor is beyond the
  output of the new one, and keeps it (`AttachIsNotAhead`, `RefusalKeepsCursor`): it cannot resume before. Once it is let in,
  the cursor is thrown away, and nothing is written under it (`StaleIsReset`, `WritesCurrentOutput`).
- **A bridge file that is behind.** The bridge writes output before it saves the cursor, and ignores a failing save. A bridge
  that is opened again with an older cursor may write output again. Output goes back only across such a restart
  (`WrittenIncreases`); the file is never ahead (`RestartNeverAhead`), and the runner replays output already written if and
  only if the file was behind and the runner still retains some of it (`RepeatsExactly`).
- **Clock readings out of lock order.** The verifier reads the clock before it takes its lock. A capability can be used
  twice exactly when some reading is later than both an earlier and a later one (`OnceExactly`).
- docs/runner.md:75-77 says that a takeover replaces the lease before the old controller is notified. The code queues the
  notice first and grants afterwards, both under the same two locks; the model follows the code.

## Model

| member | source | states |
|---|---|---|
| Replay.EvictedIsLeast | internal/runner/replay.go:21-27 | what remains after eviction is within both limits, and no longer suffix is |
| Replay.EvictionIsIncremental | internal/runner/replay.go:15-29 | evicting from the buffer after each append drops exactly what evicting from the whole history would |
| Replay.AppendRepresents | internal/runner/replay.go:15-29 | appending keeps the buffer equal to the longest suffix of the history within both limits, with an exact byte count, also when an oversized frame empties it |
| Replay.AfterExact | internal/runner/replay.go:38-53 | a cursor is valid exactly up to the latest sequence; the frames are the history after the cursor as far as retained; a gap is reported exactly when they differ from the full history after the cursor |
| Replay.BufferKeepsLongestSuffix | internal/runner/replay.go:11-29 | after any sequence of appends to a new buffer the frames are the longest suffix of all output that fits |
| Replay.ReplayBuffer.AppendData | internal/runner/replay.go:15-29 | the in-place append with its eviction loop leaves the specified buffer and returns the next numbered frame |
| Replay.ReplayBuffer.ReplayBounds | internal/runner/replay.go:31-36 | the earliest retained and the latest sequence; both the latest when nothing is retained |
| Replay.ReplayBuffer.ReplayAfter | internal/runner/replay.go:38-53 | the collecting loop returns the specified frames, gap and validity |
| HubInvariants.SendSound | internal/runner/hub.go:368-378 | a frame queued to one attachment keeps every attachment's account exact, also when the full queue drops it |
| HubInvariants.RevokeInv | internal/runner/hub.go:268-278 | revoking leaves no controller, drops at most the notified attachment, and keeps all accounts exact |
| HubInvariants.ExpireInv | internal/runner/hub.go:280-284 | afterwards no lease is expired and all accounts are exact |
| HubInvariants.GrantInv | internal/runner/hub.go:257-266 | granting a fresh lease to the only possible holder keeps all accounts exact and lease IDs distinct |
| HubInvariants.InitialExact | internal/runner/hub.go:179-209 | the initial frames of an attachment replay exactly the history from its start point, and hold one exit frame exactly after the exit |
| HubInvariants.AttachInv | internal/runner/hub.go:131-210 | attach, refused or not, keeps every attachment's stream, exit frame and lease exact |
| HubInvariants.TakeoverInv | internal/runner/hub.go:227-255 | so does takeover |
| HubInvariants.DetachInv | internal/runner/hub.go:212-225 | so does detach |
| HubInvariants.PublishOutputInv | internal/runner/hub.go:103-108 | so does publishing output: every registered attachment gets the new frame behind all earlier ones or is dropped with a contiguous prefix |
| HubInvariants.PublishExitInv | internal/runner/hub.go:110-129 | so does publishing the exit: the lease ends and every registered attachment gets one exit frame |
| HubInvariants.TakeInv | internal/runner/server.go:314-336 | taking frames for the wire never changes what an attachment was given |
| HubRuns.RunInv | internal/runner/hub.go:94-378 | under every interleaving of the two-lock steps the hub invariant holds |
| HubSafety.NextCallsMatch | internal/runner/hub.go:309-352 | no step of any thread breaks the log discipline of the open call |
| HubSafety.NextGrantsLogged | internal/runner/hub.go:257-266 | every step that grants control logs exactly that grant, and no other step grants or logs one; in particular no section of a PTY call grants |
| HubSafety.PtyCallsAreExclusive | internal/runner/hub.go:309-360 | in every run the log's grants are the hub's grants, and from the authorisation of an input or resize to the end of its call nobody is granted control or authorised and only that attachment's PTY call happens, even if a slow-consumer drop clears the lease midway |
| HubLeases.NextEvolves | internal/runner/hub.go:257-284 | one section either leaves the lease with its holder or nobody, or hands out exactly one lease never seen before |
| HubLeases.BlocksAreContiguous | internal/runner/hub.go:309-331 | between two inputs of one lease there is only input of that lease |
| HubLeases.AcceptedGrows | internal/runner/hub.go:309-331 | input is accepted only from the attachment and lease that hold control at that moment |
| HubLeases.AcceptedInputInLeaseBlocks | internal/runner/hub.go:309-360 | in every run the accepted input is ordered by grant and leases are distinct |
| HubLeases.RetiredLeaseNeverAccepted | internal/runner/hub.go:257-284 | a lease that was replaced, revoked, expired or dropped never authorises input again |
| HubAnswers.AuthorizeExactly | internal/runner/hub.go:354-360 | input and resize are authorised if and only if the caller holds the lease, names it, and its time is not over; otherwise an expired holder is deposed and told so |
| HubAnswers.StepAcceptsExactly | internal/runner/hub.go:309-331 | a step of any thread accepts input if and only if it decides one of the holder of a live lease |
| HubAnswers.AcceptedWasLive | api/terminal.md:29 | in every run each accepted input was one of the holder of a lease whose time was not over |
| HubAnswers.InputWaitsExactly | internal/runner/hub.go:309-314 | input is let to its decision if and only if nobody else holds the control lock and it is at most a mebibyte |
| HubAnswers.OversizedIsNeverDecided | internal/runner/hub.go:309-312 | in no run is input of more than a mebibyte decided |
| HubAnswers.TakeoverTakesControl | internal/runner/hub.go:227-255 | a takeover succeeds if and only if the caller may control and is registered; then it is in control with a fresh lease for a whole term, is told so, and another registered holder has no lease, is an observer, and was told or dropped |
| HubAnswers.MayAttachExactly | internal/runner/hub.go:131-143 | who is refused for role, size or permission |
| HubAnswers.AttachAnswers | internal/runner/hub.go:149-163 | which refusal an attach gets, by cursor, live lease and terminal, in that order |
| HubAnswers.AttachAdmits | internal/runner/hub.go:165-209 | an accepted attachment is registered, in control exactly if it asked to be, and its first frame says so; the former holder is deposed |
| HubAnswers.RefusedAttachLeaves | internal/runner/hub.go:142-163 | a refused attach changes nothing but to end an expired lease |
| HubAnswers.GapAnnounced | internal/runner/hub.go:192-204 | the second frame is a gap notice with the requested and retained bounds if and only if output is missing behind the cursor |
| HubAnswers.BoundsExactly | internal/runner/replay.go:31-36 | the bounds are the first retained sequence of the whole history and the latest one |
| HubAnswers.BridgeYields | internal/runner/hub.go:156-158 | a bridge that is not asked to take over leaves a live holder in control and stops; one that is takes control |
| HubAnswers.DialForgets | internal/herdrbridge/terminal.go:243-297 | a connection begins without lease and acknowledgements and with the cursor and generation of the last |
| HubAnswers.SendReaches | internal/runner/hub.go:368-378 | a frame reaches exactly its attachment, or drops it as a slow consumer with its lease |
| HubAnswers.BroadcastReaches | internal/runner/hub.go:362-366 | exactly the registered attachments |
| HubAnswers.ReplyReaches | internal/runner/server.go:353-359 | exactly while it is registered |
| HubAnswers.RevokeDeposes | internal/runner/hub.go:268-278 | the registered holder is an observer without lease and was told the reason; nobody else changes |
| HubAnswers.ExpireExactly | internal/runner/hub.go:280-284 | a lease ends by time if and only if its time is over |
| HubAnswers.RenewsExactly | internal/runner/hub.go:286-331 | the term is renewed exactly for the holder, by signs of life, acknowledgements that are not ahead, and PTY calls under the same lease |
| HubAnswers.DetachExactly | internal/runner/hub.go:212-225 | takes the attachment and its lease, once, and nothing of anybody else |
| HubAnswers.OutputReaches | internal/runner/hub.go:103-108 | one read of the process is the next numbered frame for exactly the registered attachments |
| HubAnswers.ExitReaches | internal/runner/hub.go:110-129 | the first exit ends the lease, tells its holder, and reaches every registered attachment; a later one does nothing |
| HubAnswers.SetProcessExactly | internal/runner/hub.go:94-101 | the process runs unless it has exited |
| HubLifecycle.TakeoverLeakExactly | internal/runner/hub.go:227-255 | takeover leaves a registered controller if and only if it is not a takeover of the caller's own expired lease with a full queue |
| HubLifecycle.ControllerStaysRegistered | internal/runner/hub.go:131-284 | on every run without that case the controller is a registered attachment |
| HubLifecycle.LeakHappens | internal/runner/hub.go:238-242 | a run that ends with an unregistered controller |
| HubLifecycle.ProcessMovesForward | internal/runner/process.go:101-135 | the process state only moves forward, and after the exit frame neither it nor the output history changes |
| HubLifecycle.NoPtyCallAfterExit | internal/runner/process.go:118-220 | once the exit frame is out, no input or resize of any attachment succeeds, in any run |
| HubObject.Hub.constructor | internal/runner/hub.go:81-92 | a new hub is empty, starting, and has no controller |
| HubObject.Hub.SendLocked | internal/runner/hub.go:368-378 | queue the frame, or drop the attachment and its lease |
| HubObject.Hub.BroadcastLocked | internal/runner/hub.go:362-366 | the loop over subscribers in arbitrary order, each visit possibly dropping one, reaches exactly the registered ones |
| HubObject.Hub.RevokeControllerLocked | internal/runner/hub.go:268-278 | the holder is demoted and notified if registered, and the lease is gone; keeps the hub invariant |
| HubObject.Hub.ExpireControllerLocked | internal/runner/hub.go:280-284 | revoked exactly when the expiry is reached; keeps the hub invariant |
| HubObject.Hub.GrantControllerLocked | internal/runner/hub.go:257-266 | role, lease and expiry of the new controller |
| HubObject.Hub.CollectInitial | internal/runner/hub.go:190-208 | attached, gap notice, replay and exit, in that order |
| HubObject.Hub.AttachLocked | internal/runner/hub.go:142-210 | all refusals in their order, and the state left behind in each; keeps the hub invariant |
| HubObject.Hub.DetachLocked | internal/runner/hub.go:212-225 | the attachment and a lease it holds are gone; a second detach does nothing; keeps the hub invariant |
| HubObject.Hub.TakeoverLocked | internal/runner/hub.go:227-255 | refusals, expiry, revocation and grant in the source's order; keeps the hub invariant |
| HubObject.Hub.TouchLocked | internal/runner/hub.go:286-292 | only the holder's own lease is extended; keeps the hub invariant |
| HubObject.Hub.AcknowledgeLocked | internal/runner/hub.go:294-307 | refused when closed or ahead of the latest sequence, and otherwise extends the lease; keeps the hub invariant |
| HubObject.Hub.AuthorizeControllerLocked | internal/runner/hub.go:354-360 | expires first, then accepts exactly the holder with its lease ID; keeps the hub invariant |
| HubObject.Hub.RenewLocked | internal/runner/hub.go:325-329 | after the PTY call only a lease still held is extended; keeps the hub invariant |
| HubObject.Hub.ReplyLocked | internal/runner/server.go:353-359 | an answer reaches an attachment only while it is registered; keeps the hub invariant |
| HubObject.Hub.SetProcessLocked | internal/runner/hub.go:94-101 | starting becomes running; an exited process stays exited; keeps the hub invariant |
| HubObject.Hub.PublishOutputLocked | internal/runner/hub.go:103-108 | one numbered frame is retained and broadcast; keeps the hub invariant |
| HubObject.Hub.PublishExitLocked | internal/runner/hub.go:110-129 | the first exit is recorded, the lease revoked and the exit broadcast; later ones do nothing; keeps the hub invariant |
| StreamGrowth.NextGrows | internal/runner/server.go:314-336 | no later step changes the start point or the initial frames of an attachment, and its stream only grows |
| Bridge.BridgeObject.Answer | internal/herdrbridge/terminal.go:271-292 | the first frame: errors leave the cursor alone, a new runner generation resets it |
| Bridge.BridgeObject.Handle | internal/herdrbridge/terminal.go:320-365 | output advances the cursor after it was written, a gap is shown, a cursor error resets, a revocation stops |
| Bridge.BridgeObject.RunConnection | internal/herdrbridge/terminal.go:243-369 | the loop over the frames of a connection stops at the first frame that ends it |
| Bridge.Ended | internal/herdrbridge/terminal.go:312-369 | nothing is read after the frame that ended the connection |
| Bridge.NewGenerationResets | internal/herdrbridge/terminal.go:285-289 | with a saved cursor of another generation, an accepted attach ends the connection with the cursor gone and the new generation saved, and nothing written, whatever frames follow |
| Bridge.RefusalKeepsCursor | internal/herdrbridge/terminal.go:279-281 | a refused attach shows nothing and keeps the cursor; which refusals need the user |
| Bridge.FrameAnswer | internal/herdrbridge/terminal.go:328-364 | when the cursor moves, what is shown and acknowledged, and which frames end the connection and how |
| BridgeRuns.AckIsAccepted | internal/runner/hub.go:294-307 | an acknowledgement the bridge sent, however late it arrives, is never ahead of the runner |
| BridgeRuns.AttachIsNotAhead | internal/runner/hub.go:150-155 | the bridge's attach is refused for its cursor if and only if that is another runner's and beyond this one's output |
| BridgeRuns.WritesCurrentOutput | internal/herdrbridge/terminal.go:285-292 | nothing is ever written under the cursor of another runner: what an act writes is output of the current runner, by a bridge that accepted its generation |
| BridgeRuns.StaleIsReset | internal/herdrbridge/terminal.go:285-289 | the first answer of a new runner throws a stale cursor away |
| BridgeRuns.AttachHandsOut | internal/runner/hub.go:179-209 | an accepted attach answers with its lease first, then with a gap notice exactly when frames behind the cursor are missing |
| BridgeRuns.NextOutput | internal/runner/server.go:314-336 | an output frame on the wire is the next chunk of the history behind those already on it |
| BridgeRuns.DeliveryIsOrdered | internal/herdrbridge/terminal.go:72-139 | over any hub steps, new runners, losses, reconnects, failed saves and kills, also between writing and saving a frame, the bridge's account of the current runner stays exact |
| BridgeRuns.RestartNeverAhead | internal/herdrbridge/terminal.go:334-343 | a restarted bridge starts at or behind what was written, and lags exactly when its file was behind |
| BridgeRuns.RepeatsExactly | internal/runner/replay.go:38-53 | the runner replays output already written to a restarted bridge if and only if its file was behind and some of that output is retained |
| BridgeRuns.WrittenIncreases | internal/herdrbridge/terminal.go:334-344 | sequences written strictly increase over all connections and restarts, except across a restart from a file that was behind |
| Guarantees.HubGuarantee | api/terminal.md:33-43 | from a new hub, under every interleaving: exact replay-to-live hand-over, exit frame and lease of every attachment, PTY calls that exclude every grant the hub made, lease blocks in grant order, exit after the last read |
| Guarantees.BridgeGuarantee | docs/runner.md:72-94 | from a new runner and bridge, over any further runners: genuine output of the current one, strictly increasing but for restarts from a file that was behind, every jump announced on its connection, no acknowledgement ahead of the runner, and no attach but with another runner's cursor |
| Guarantees.QueueGuarantee | internal/kubernetes/controller.go:67-127 | from a new controller: one token per pending ID, at most one worker per ID, no lost wake-up |
| WorkQueue.OneTokenPerId | internal/kubernetes/controller.go:71-109 | queue entries, hand-offs and in-flight workers of an ID sum to one if it is pending and to zero otherwise |
| WorkQueue.NeverTwoWorkers | internal/kubernetes/controller.go:90-109 | no ID is reconciled by two workers, or queued while it is reconciled |
| WorkQueue.NoLostWakeup | internal/kubernetes/controller.go:67-127 | an enqueued ID is queued, handed over, dirty in flight or armed for retry until a reconcile of it starts |
| WorkQueue.OwedExactly | internal/kubernetes/controller.go:67-127 | only the start of a reconcile, an overflow or an exhausted retry budget ends that obligation |
| WorkQueue.AttemptsCountFailures | internal/kubernetes/controller.go:95-116 | in every run the retry count of an ID is the number of failures since its last success |
| WorkQueue.BudgetExactly | internal/kubernetes/controller.go:111-122 | a failure is retried if and only if at most the budget of failures follow the last success, and otherwise ends the obligation |
| WorkQueue.AlwaysRoom | internal/kubernetes/controller.go:78-104 | with room for every distinct ID no send finds the channel full |
| WorkQueue.RunWithin | internal/kubernetes/controller.go:40-46 | in every run there are never more busy workers than workers, and only requested IDs are around |
| WorkQueue.NothingDropped | internal/kubernetes/controller.go:36 | in every run over at most the capacity of distinct IDs nothing is dropped |
| WorkQueue.WorkShrinks | internal/kubernetes/controller.go:90-127 | without new requests and failures every step of any thread reduces the work left |
| WorkQueue.DrainBound | internal/kubernetes/controller.go:90-127 | so at most a fixed number of such steps can be taken, whatever the schedule |
| WorkQueue.DrainedOwesNothing | internal/kubernetes/controller.go:90-127 | a drained queue owes no reconcile |
| WorkQueue.WorkCanGoOn | internal/kubernetes/controller.go:90-127 | while work is left some thread can go on, unless the channel is full and every worker waits to send back into it |
| WorkQueue.WedgedForever | internal/kubernetes/controller.go:98-105 | that wedge is permanent: in every run from it nobody receives, sends or finishes, and the channel does not change |
| WorkQueue.OwedForever | internal/kubernetes/controller.go:98-105 | an ID that is owed a reconcile in the channel of a wedged queue stays owed in every run |
| WorkQueue.WedgeHappens | internal/kubernetes/controller.go:44-46 | a run of a new controller that wedges, for every capacity and number of workers |
| WorkQueue.WedgeExactly | internal/kubernetes/controller.go:36-46 | requests for a set of agents can wedge the queue if and only if they are at least as many as channel and workers hold together |
| WorkQueue.QueueDrains | internal/kubernetes/controller.go:67-127 | over fewer agents, every schedule without new requests and failures that cannot be continued has drained the queue, and nothing is owed |
| WorkQueue.Controller.MarkPending | internal/kubernetes/controller.go:67-77 | pending or dirty mark; the caller sends exactly when the ID was not pending |
| WorkQueue.Controller.TrySend | internal/kubernetes/controller.go:78-80 | sent exactly when there is room |
| WorkQueue.Controller.Forget | internal/kubernetes/controller.go:81-86 | an overflow clears both marks |
| WorkQueue.Controller.Take | internal/kubernetes/controller.go:92-94 | a free worker takes the oldest ID in flight |
| WorkQueue.Controller.SettleDone | internal/kubernetes/controller.go:95-109 | retries are forgotten; a dirty ID stays pending and is sent back |
| WorkQueue.Controller.SettleFailed | internal/kubernetes/controller.go:110-122 | marks cleared, attempts counted, retried within the budget |
| WorkQueue.Controller.SendBack | internal/kubernetes/controller.go:100-104 | the worker's blocking send |
| Bootstrap.CrashConsistent | internal/bootstrap/bootstrap.go:103-193 | after any crashes and git failures of runs naming a repository: metadata implies a complete clone of what it records, a clone without metadata implies a matching intent |
| Bootstrap.RecoverWithoutFetch | internal/bootstrap/bootstrap.go:320-353 | a committed clone is recorded without fetching |
| Bootstrap.FetchAndCommit | internal/bootstrap/bootstrap.go:143-193 | with a free destination one fetch leads to clone, metadata and no intent or staging |
| Bootstrap.RunSucceedsExactly | internal/bootstrap/bootstrap.go:103-193 | on any disk, an uninterrupted run with working git succeeds if and only if the disk is recoverable for its identity; it does not fetch if a clone is there, and a failure leaves the metadata alone |
| Bootstrap.RunAnswersVerdict | internal/bootstrap/bootstrap.go:103-193 | on any disk, with any git, the answer of a run, down to the code of its failure, told from the disk, the git commands that work and the commit; a failed run leaves metadata and clone alone |
| Bootstrap.RerunReturnsTheSame | internal/bootstrap/bootstrap.go:103-117 | a second run for the identity returns the same metadata without git or any change, and one for another identity is refused |
| Bootstrap.OldEmptyIsHead | internal/bootstrap/bootstrap.go:106-109 | metadata of an empty workspace without a revision stands for HEAD |
| Bootstrap.CommitsExactly | internal/bootstrap/bootstrap.go:407-417 | a commit is 40 or 64 hexadecimal digits |
| Bootstrap.CrashesAreRecoverable | docs/workspaces.md:54-79 | whatever happened to a fresh workspace, a run naming a repository finishes if and only if nobody else claimed the workspace, and never fetches again once the clone is in place |
| Bootstrap.StuckForever | internal/bootstrap/bootstrap.go:136-152 | beside an intent and an empty directory, runs naming a repository that fail or crash anywhere leave the workspace as it is, and none succeeds |
| Bootstrap.StuckWorkspace | internal/bootstrap/bootstrap.go:119-152 | two crashes from a fresh workspace lead there |
| Bootstrap.StepAdvances | internal/bootstrap/bootstrap.go:103-193 | every step brings a run closer to its end |
| Bootstrap.Workspace.Execute | internal/bootstrap/bootstrap.go:81-193 | the in-place run leaves what its durable steps leave |
| Bootstrap.Workspace.InitialiseEmpty | internal/bootstrap/bootstrap.go:119-128 | an empty workspace: directory, then metadata |
| Bootstrap.Workspace.RecoverOrClone | internal/bootstrap/bootstrap.go:320-353 | recovery by origin and head, or a clone when nothing is there |
| Bootstrap.Workspace.CloneInto | internal/bootstrap/bootstrap.go:419-456 | destination check and staging reset |
| Bootstrap.Workspace.RunCommands | internal/bootstrap/bootstrap.go:158-178 | the git commands in order, ended by the first failure |
| Bootstrap.Workspace.CommitClone | internal/bootstrap/bootstrap.go:179-193 | rename, metadata, intent removal, in that order |
| Lifecycle.HandleCoherent | internal/controlplane/server.go:271-407 | no request breaks the agreement of desired state, state and recorded runtime, or touches a deleted agent |
| Lifecycle.GenerationCountsChanges | internal/kubernetes/repository.go:292-342 | a request raises the runtime generation by exactly one if it changed the adapter binding and leaves it otherwise |
| Lifecycle.StopExactly | internal/lifecycle/model.go:207-209 | stop takes effect exactly on a running agent; in which states it is refused |
| Lifecycle.ResumeExactly | internal/lifecycle/model.go:211-213 | resume takes effect exactly on a stopped agent; in which states it is refused |
| Lifecycle.DeleteExactly | internal/controlplane/server.go:388-395 | deletion takes effect once, in every state, and is never refused |
| Lifecycle.ChangeExactly | internal/controlplane/server.go:301-316 | an adapter change takes effect if and only if the adapter resolves, the binding differs and no change, stop or deletion is under way; what it rebinds, and its refusals |
| Lifecycle.RefusedLeaves | internal/controlplane/server.go:345-386 | a refused request changes nothing |
| Reconciler.ReconcileCoherent | internal/kubernetes/reconciler.go:53-308 | a pass changes nothing of the record but its status, keeps it coherent, and removes it only when deletion was asked for and the claim is gone |
| ReconcilerAnswers.RefusesExactly | internal/kubernetes/reconciler.go:71-99 | timeout, missing adapter or profile, unapproved secret or storage, each with its reason and in this order; a broken registry changes nothing |
| ReconcilerAnswers.FailsExactly | internal/kubernetes/reconciler.go:128-162 | for a current claim a pass reports failed if and only if the claim failed, the bootstrap exited with an error or the runner failed, and says which |
| ReconcilerAnswers.RunsExactly | internal/kubernetes/reconciler.go:163-166 | it reports running if and only if claim and pod are ready and nothing failed |
| ReconcilerAnswers.WaitsExactly | internal/kubernetes/reconciler.go:132-168 | otherwise what it waits for, and that only a suspended sandbox is touched |
| ReconcilerAnswers.ClaimsExactly | internal/kubernetes/reconciler.go:101-121 | without a claim a left sandbox is let go first, and otherwise exactly the asked runtime is claimed |
| ReconcilerAnswers.CurrentExactly | internal/kubernetes/reconciler.go:369-374 | the claim of one pass is current for a later one if and only if generation, adapter, version and pool are the same |
| ReconcilerAnswers.ReplacesExactly | internal/kubernetes/reconciler.go:170-200 | an outdated claim is waited for, drained or released, by its deletion mark and the reported suspension |
| ReconcilerAnswers.StopsExactly | internal/kubernetes/reconciler.go:202-231 | stopped if and only if there is nothing to suspend or the suspension is reported; otherwise the sandbox is asked to suspend |
| ReconcilerAnswers.DeletesExactly | internal/kubernetes/reconciler.go:233-279 | retained volume freed, claim deleted with all it owns, record removed if and only if there is no claim |
| ReconcilerAnswers.SweepsExactly | internal/kubernetes/controller.go:184-205 | exactly a claim whose agent is gone is deleted |
| ReconcilerAnswers.GivesUpExactly | internal/kubernetes/controller.go:207-219 | an exhausted retry budget marks every agent failed that is not to be deleted |
| ReconcilerObject.Reconciler.ReconcileRunning | internal/kubernetes/reconciler.go:71-200 | timeout and registry refusals, then provisioning, replacement or start-up, as specified; keeps an orderly replacement in order and the workspace volume |
| ReconcilerObject.Reconciler.ReconcileStopped | internal/kubernetes/reconciler.go:202-231 | stopped when nothing runs, otherwise suspend, as specified; keeps order and volume |
| ReconcilerObject.Reconciler.ReconcileDelete | internal/kubernetes/reconciler.go:233-279 | owner references first, then the claim, then the record, as specified; the volume stays, and a retained one is safe from the deletion |
| ReconcilerObject.Reconciler.Reconcile | internal/kubernetes/reconciler.go:53-69 | one pass leaves the specified cluster and keeps the record coherent, an orderly replacement in order, and the workspace volume |
| ClusterRuns.RecordStaysCoherent | internal/lifecycle/model.go:207-222 | over all requests, passes and cluster events: deleted exactly when deleting and never undone, only states the desired state allows, running only with the current generation and kind, generations never go back |
| ClusterRuns.GiveUpCoherent | internal/kubernetes/controller.go:207-219 | an exhausted retry budget keeps the record coherent |
| ClusterRuns.OrderIsKept | internal/kubernetes/reconciler.go:101-200 | the order invariant of a replacement holds on every orderly run |
| ClusterRuns.ReplacementIsOrdered | docs/adr/0002-agent-adapters-and-runtime-generations.md:36-47 | on every orderly run a claim is created only when sandbox and pod are gone, a sandbox leaves only drained and unclaimed, and running is reported only for a ready pod of the current generation |
| ClusterRuns.PassKeepsOrderExactly | internal/kubernetes/reconciler.go:170-200 | from every ordered cluster, under a fixed registry, a pass keeps the order if and only if it is not about to release a claim on a stale suspension |
| ClusterRuns.ExhaustKeepsOrderExactly | internal/kubernetes/controller.go:207-219 | an exhausted retry budget keeps the order of a kept agent if and only if no replacement is under way |
| ClusterRuns.OrderKeptExactly | internal/kubernetes/reconciler.go:53-200 | under a fixed registry, a request, pass, sweep, exhausted budget or cluster event keeps the order if and only if it is orderly |
| ClusterWitnesses.StaleReplacementHappens | internal/kubernetes/reconciler.go:178-199 | a run that reports generation 2 running on the pod of generation 1 |
| ClusterWitnesses.ExhaustionHappens | internal/kubernetes/controller.go:207-219 | a run that claims generation 2 while the sandbox of generation 1 is there, after which no schedule makes the agent run |
| ClusterWitnesses.StrandingHappens | internal/kubernetes/reconciler.go:233-255 | an orderly run of an agent without retention, and a schedule of its deletion that comes to rest with something left |
| ClusterRuns.NextVolumeOk | internal/kubernetes/controller.go:184-205 | no single step, sweep included, removes the volume of a kept agent or a retained one |
| ClusterRuns.WorkspaceSurvives | internal/kubernetes/reconciler.go:101-279 | the volume survives every run while the agent is kept, and deletion too if it is retained and nobody puts the owner reference back |
| Convergence.ClusterCloser | internal/kubernetes/reconciler.go:71-200 | every effective step of a cooperative cluster brings it closer to the asked runtime |
| Convergence.PassCloser | internal/kubernetes/reconciler.go:71-200 | every pass brings it closer or only writes the status |
| Convergence.RankDecreases | internal/kubernetes/reconciler.go:71-200 | every effective step of either strictly lowers the rank |
| Convergence.QuietIsArrived | internal/kubernetes/reconciler.go:124-168 | where no step has an effect the agent is running at its current generation and kind on a ready pod of that generation |
| Convergence.ArrivedStays | internal/kubernetes/reconciler.go:156-168 | it stays there |
| Convergence.EveryScheduleConverges | internal/kubernetes/reconciler.go:71-200 | in any order of passes and cluster steps at most rank many have an effect, and then the agent has arrived |
| Convergence.Converges | internal/kubernetes/reconciler.go:71-200 | from every healthy world, in the middle of a replacement or not, a schedule within the rank arrives |
| Convergence.SomeScheduleArrives | internal/kubernetes/reconciler.go:71-200 | from every ordered world where nothing failed, stale condition or not, some schedule within the rank arrives |
| Convergence.OrderlyRunsConverge | internal/kubernetes/reconciler.go:71-200 | the same after any orderly run of a new agent |
| Arrival.GenerationIsKept | internal/kubernetes/reconciler.go:323-374 | on every orderly run no claim is ahead of the agent, and a claim of the agent's generation is what the registry asks for |
| Arrival.ArrivesExactly | internal/kubernetes/reconciler.go:71-200 | in every ordered world where nothing failed, every schedule arrives if and only if no outdated runtime has a stale suspension |
| Arrival.OrderlyRunsArriveExactly | docs/adr/0002-agent-adapters-and-runtime-generations.md:36-47 | the same after any orderly run of a new agent |
| Arrival.MisledMisses | internal/kubernetes/reconciler.go:178-199 | otherwise there is a schedule that comes to rest without arriving, the old pod reported as the new runtime |
| Arrival.BlockedForever | internal/kubernetes/reconciler.go:124-140 | a claim waiting beside a living sandbox never runs, whatever passes and cluster do |
| Shutdown.StopRankDecreases | internal/kubernetes/reconciler.go:202-231 | with stop asked for, every effective step of passes or cluster strictly lowers a rank, also past a stale suspension |
| Shutdown.QuietIsHalted | internal/kubernetes/reconciler.go:202-231 | where no step has an effect the agent is reported stopped and no pod exists |
| Shutdown.EveryStopHalts | docs/adr/0001-resource-and-api-model.md:68-72 | whatever the schedule, a stop ends there within the rank |
| Shutdown.DeleteRankDecreases | internal/kubernetes/reconciler.go:233-255 | with deletion asked for, every effective step strictly lowers a rank |
| Shutdown.EveryDeletionEnds | docs/control-plane.md:145 | whatever the schedule, a deletion ends within the rank, with record and claim gone |
| Shutdown.ShapeIsKept | internal/kubernetes/reconciler.go:101-200 | on every orderly run the claim owns the sandbox and the sandbox owns the volume while the agent is kept |
| Shutdown.StrandedEnds | internal/kubernetes/reconciler.go:233-255 | a volume whose claim is gone outlives the deletion of its agent |
| Shutdown.DeletionCleansExactly | docs/workspaces.md:137 | a deletion without retention leaves nothing under every schedule if and only if no release is under way and the volume hangs on the sandbox |
| EventBus.NextInv | internal/lifecycle/events.go:16-74 | every step keeps what a client received and what is coming to it equal to its filtered history |
| EventBus.DeliveryIsContiguous | internal/controlplane/server.go:418-470 | over any reconnects with the last received ID a client receives a contiguous segment of the events it asked for, none lost or repeated, up to the present when its stream is live and idle |
| EventBus.ReceivesOwnEvents | internal/controlplane/server.go:445-461 | a client receives nothing but events of its owner, and of its agent if it asked for one |
| EventBus.AgentNarrows | internal/controlplane/server.go:445-461 | the agent filter narrows the owner's stream to exactly the events of that agent, in order |
| EventBus.PublishReaches | internal/lifecycle/events.go:16-35 | every registered channel with room gets the event, a full one is closed with what it holds, and the newest events are retained |
| EventBus.SubscribeExactly | internal/lifecycle/events.go:37-74 | one empty channel is registered if and only if the cursor is empty or retained; cancelling closes it, once |
| EventBus.RefusedExactlyWhenEvicted | internal/lifecycle/events.go:37-59 | a cursor is refused if and only if its event was evicted; otherwise the replay is exactly the owner's events behind it |
| EventBus.ReconnectsExactly | internal/controlplane/server.go:430-434 | a client that received something gets a new stream if and only if its last event is among the retained ones |
| EventBusObject.EventBus.Publish | internal/lifecycle/events.go:16-35 | trims to capacity; every open channel gets the event or is closed |
| EventBusObject.EventBus.Locate | internal/lifecycle/events.go:42-51 | the search loop finds the cursor exactly when it is retained |
| EventBusObject.EventBus.Collect | internal/lifecycle/events.go:53-58 | the owner's events from the start index, in order |
| EventBusObject.EventBus.Subscribe | internal/lifecycle/events.go:37-74 | replay and a registered channel under one lock, or a refusal that changes nothing |
| EventBusObject.EventBus.Cancel | internal/lifecycle/events.go:63-72 | closes a registered channel once |
| Listing.ListedExactly | internal/kubernetes/repository.go:203-221 | the listing is in order and holds exactly the matching agents |
| Listing.OwnersAreApart | internal/kubernetes/repository.go:209-211 | nobody sees the agents of another owner |
| Listing.FiltersNarrow | internal/kubernetes/repository.go:212-217 | state and name narrow the owner's listing to exactly the agents that have them |
| Listing.LimitsExactly | internal/kubernetes/repository.go:230-238 | fifty without a limit; everything that is left if it fits, and a full page otherwise |
| Listing.PageExactly | internal/kubernetes/repository.go:222-240 | a page holds exactly the matching agents between its cursor and the next one, at most the limit, and names a next cursor if and only if more lie beyond |
| Listing.WalkAscends | internal/kubernetes/repository.go:198-240 | IDs strictly increase over all pages of a walk, whatever happens to the store in between |
| Listing.WalkFindsStayers | internal/kubernetes/repository.go:198-240 | an agent that matches at every read is found by a walk that ends |
| Listing.StayersComeOnce | internal/kubernetes/repository.go:198-240 | exactly once |
| Listing.WalkIsListing | internal/kubernetes/repository.go:198-240 | on an unchanging store the walk ends within the full pages needed and its pages are the rest of the listing |
| Listing.WalkFromBeginning | internal/kubernetes/repository.go:198-240 | from the beginning it is the whole sorted listing |
| Listing.Search | internal/kubernetes/repository.go:227-228 | the binary search splits the listing exactly behind the cursor |
| Listing.List | internal/kubernetes/repository.go:198-240 | the page of the store, or a refusal exactly for a cursor that does not decode |
| Capability.SecondUseNeedsPeak | internal/auth/capability.go:127-149 | a second acceptance needs a clock reading in between later than both |
| Capability.OnceExactly | internal/auth/capability.go:127-149 | clock readings in lock order rule out every second use if and only if none is later than both an earlier and a later one |
| Capability.NoSecondUse | internal/auth/capability.go:127-149 | with readings that do not go back no capability is accepted twice, although expired entries are forgotten |
| Capability.UsedIsExactlyAlive | internal/auth/capability.go:137-149 | after each call that reaches the lock the set holds exactly the accepted capabilities that have not expired |
| Capability.AcceptedExactly | internal/auth/capability.go:127-149 | a call is accepted if and only if it is admissible and no accepted capability with that ID is alive |
| Capability.MintedIsAccepted | internal/auth/capability.go:51-76 | a minted capability is accepted if and only if it is presented for its agent and the terminal scope, in its time, and unused |
| Capability.MintsExactly | internal/auth/capability.go:51-54 | who gets one |
| Capability.AcceptedIsScoped | internal/auth/capability.go:127-136 | whatever is accepted names issuer, audience, agent, scope and time; no capability is accepted for two agents or scopes |
| Capability.Verifier.Prune | internal/auth/capability.go:139-143 | the loop over the map, deleting as it goes, drops exactly the expired entries |
| Capability.Verifier.VerifyFor | internal/auth/capability.go:95-149 | acceptance, each refusal and the new set, for every token |

## Left out

- WebSocket, HTTP, server-sent-event framing and JSON: frames, requests and events are datatypes.
- Ed25519, SHA-256 and base64: a token is its claims or nothing; a cursor decodes or not; identifiers are fresh tokens of
  which only equality (for agents in a listing: order) is used.
- PTY, signals, exec and git: their outcomes are parameters.
- Time: each section reads the clock once, and readings are parameters in no particular order, except where a lemma says so.
- Widths: sequence numbers, generations and times are unbounded integers; the wrap-around of a 64-bit sequence is not modelled.
- Subscription objects of the hub and channels of the event bus are entries of a map under their identifier; aliasing
  between objects is not modelled. Channels are sequences with a capacity; a send to a waiting receiver of a channel
  without capacity is not modelled.
- The bridge's back-off, deadline and wait for a running agent are not modelled.
- The work queue has a fixed number of workers; the call that reports an exhausted retry budget is part of the failing step.
- Cancellation of contexts, which ends workers, streams and runs early, is not modelled in the work queue and the reconciler.
- Kubernetes: the cluster holds one claim, sandbox, pod and volume per agent under deterministic names; each request and
  each reconcile pass is one atomic step, so a status written back after a concurrent change is not modelled, nor are
  failing API calls, watches and resource versions. A claim gets a sandbox
  only when none of that name exists. The volume list of an agent has one element, and a second deletion of a claim replaces the propagation policy of the first.
- The sweep of orphan claims: an agent record disappears only through its own finalizer, so the sweep finds nothing to do
  on the runs of the model; a record removed behind the finalizer's back is not modelled.
- Bootstrap: unreadable or corrupt metadata files and failing file operations are not distinguished from crashes; the
  agent's own changes to the repository after the bootstrap are not modelled.
- Adapter registry, principals, connection limits, metrics, the Herdr user interface and request-field validation: easy
  checks without a property that spans operations.
- ClusterRuns.ReplacementIsOrdered: holds on orderly runs, where the registry answers and does not change, no pass releases a claim on a
  stale condition and retries do not run out in the middle of a replacement. That the last two are exactly what is
  needed is ClusterRuns.OrderKeptExactly.
- WorkQueue.WedgeExactly: for a channel of positive capacity; a channel without capacity is not modelled.
