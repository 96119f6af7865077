# Verified model of the connector manager

This project models the two services of the repository that run connectors in Kubernetes and
proves what they promise:

* the **ACM** deploys a connector pod and serves it with four cooperating coroutines: an event
  watcher, a gRPC health checker, a garbage collector and a shim that carries the outcome to
  waiting clients;
* the **AIM** imports, retags and pushes connector images through containerd;
* both lean on the list/watch machine over the Kubernetes API and on the naming library.

`dafny verify dfyconfig.toml` checks everything.

## How it is laid out

| file | content |
|---|---|
| `Watcher.dfy`, `WatchAnswers.dfy` | the list/watch machine, and what it does told from the API's answers alone |
| `WatchHistory.dfy`, `CatchUp.dfy` | the machine against a server with an append-only versioned history |
| `Pods.dfy` | the questions asked of a pod |
| `Protocol.dfy` | the pod-manager protocol as a transition system: one program counter per coroutine, channels as sequences, a clock, clients, panics |
| `Frames.dfy`, `Signals.dfy`, `Results.dfy`, `Checks.dfy`, `Tickets.dfy`, `Evidence.dfy`, `Endings.dfy` | the inductive invariant, part by part |
| `EventStream.dfy` | the list/watch machine inside the protocol |
| `PodManager.dfy`, `Attention.dfy`, `Causes.dfy`, `Readiness.dfy`, `WindDown.dfy` | the theorems over every run of the protocol |
| `Deployments.dfy` | any number of deployments sharing the cache |
| `Tasks.dfy` | `watch`, `gc`, the shim and the endpoints in the code's own imperative form, each of them proved to make a run of the protocol and to carry on until it is done or cannot move |
| `ServerCheck.dfy`, `CheckRun.dfy` | the health checker's loop against the clock, and that loop as a run of the protocol |
| `Names.dfy`, `Listing.dfy` | names and the image listing |
| `Containerd.dfy`, `Importer.dfy` | the import workflow with its background removals, as a transition system and in the code's own imperative form |

A state of the protocol is reachable exactly when it is `After(ttl, moves)` for a run `moves`, so
a lemma that takes an arbitrary run speaks of every interleaving, every answer of Kubernetes and
the network, and every panic, unless it says otherwise.

Assumptions, each of them part of the definitions:

* A watch opened at version v delivers the later changes in order; an error item swallows no
  change; a bookmark covers exactly the changes already delivered. A list is the snapshot at some
  committed version, not necessarily the latest.
* The two-party barrier counts arrivals and does not take back an abandoned one. HTTP handlers
  are not cancelled midway. Pod names are distinct.
* `next_backoff` on a fresh policy grants a delay the first time, grants none once the maximum is
  exceeded, and its delays have a positive minimum. Apart from that it may refuse at any time.
* The event watcher and the checker may panic anywhere; the collector only where it makes its
  client or unwraps a reply of Kubernetes; the shim never.
* A `ctr` command that fails changes nothing, and containerd refuses to remove a namespace that
  holds references.

Where the code and its own words disagree the model follows the code:

* the recovery note on `watcher` promises a fresh list for an expired version, which does not
  happen when the version is refused at the start of a watch (`RefusedStartNeverRelists`);
* the unwraps in `err_image_pull` are called safe and are not (`ErrImagePullPanicsExactly`);
* the stream that `watch` reads never ends, so `UnexpectedCloseOfEventStream` cannot occur
  (`BugsAreNotReported`);
* a cache entry registered only after its own cleanup has run is never removed
  (`LateEntryIsNeverRemoved`, `LateRegistrationCanHappen`); every other one is (`EntryFollowsTasks`);
* a watcher that dies before it announces the pod, or between stopping the collector and deleting
  the pod, leaves the pod behind (`EarlyDeathLeaksPod`, `LateDeathLeaksPod`), and so does any
  death of the watcher if the collector panics before it asks for the deletion; there is no other
  way (`LeakedExactly`);
* a name is no label, or the truncation panics, for some phrases with letters beyond ASCII
  (`Rfc1123Subdomain`, `TruncationCanPanic`);
* a listing whose type column is narrower than its heading is read with the wrong digest
  (`WrongDigestCanHappen`);
* the namespace guarantee of the AIM fails exactly when metadata extraction fails after an import
  (`CoveredExactlyWhenExtracted`).

## Model

| member | source | states |
|---|---|---|
| WatchHistory.StoreIsSnapshot | k8s/library/k8s/src/watcher.rs:139-246 | in every run against the server, a store folded over the emitted events is the server's contents at the held version, made of exactly the changes stamped up to it, whatever the stream ends, errors, bookmarks and re-lists |
| WatchHistory.SegmentsAreContiguous | k8s/library/k8s/src/watcher.rs:154-229 | between one Restarted and the next the events are one contiguous segment of the history, starting where the list left off: no gap, no duplicate, in order |
| WatchHistory.FirstEventIsRestarted | k8s/library/k8s/src/watcher.rs:144-153 | no change is emitted before the first list |
| WatchHistory.UpToIs | k8s/library/k8s/src/watcher.rs:173-181 | holding the version of the last delivered change is holding exactly the position of the stream in the history |
| CatchUp.CanAlwaysCatchUp | k8s/library/k8s/src/watcher.rs:139-246 | from every reachable state, whatever has ended, broken or expired, answers exist after which the store is all the server has committed and the stream is read to its end, at most two more than there are changes |
| WatchAnswers.AnswersTell | k8s/library/k8s/src/watcher.rs:144-231 | told from the answers alone: the machine has emitted what they said, has to list exactly if no list stands, reads a stream exactly if the latest opened has not ended or expired, and holds the latest version it was given |
| WatchAnswers.EndedIsReopened | k8s/library/k8s/src/watcher.rs:229 | after a stream has ended nothing is read before a watch has been opened anew |
| Watcher.Step | k8s/library/k8s/src/watcher.rs:235-246 | a poll consumes responses up to the first emission and loses none of it; it is pending only when all were silent |
| Watcher.Unfold | k8s/library/k8s/src/watcher.rs:309-320 | the unfolded stream emits exactly what the trampolined machine emits over the same responses |
| Watcher.DriveConcat | k8s/library/k8s/src/watcher.rs:135-143 | the machine can be stopped and resumed at any state: a run is its prefix followed by a run from where that ended |
| Watcher.RestartedNeedsGone | k8s/library/k8s/src/watcher.rs:210-221 | between any event and a later Restarted the stream carries a 410 error, whatever the server answers |
| Watcher.RestartsCountGones | k8s/library/k8s/src/watcher.rs:144-232 | conservation from any state: every 410 is answered by exactly one fresh list and nothing else is, so a held version is given up if and only if an open stream yields a 410 |
| Watcher.GivenUpExactlyOnGone | k8s/library/k8s/src/watcher.rs:154-232 | over any answers whatsoever, a held version is given up if and only if an open stream yields a 410 |
| Watcher.RefusedStartNeverRelists | k8s/library/k8s/src/watcher.rs:154-167 | any number of refusals in a row at the start of a watch leaves the version as it is and emits only errors, contrary to the recovery note at 289-293 |
| Pods.FindWaiting | k8s/library/k8s/src/pod.rs:172-198 | finds a container waiting for the reason if there is one |
| Pods.FindWaitingIsFirst | k8s/library/k8s/src/pod.rs:204-224 | what is found is the first such container |
| Pods.ErrImagePullPanicsExactly | k8s/library/k8s/src/pod.rs:200-248 | the unwraps panic if and only if the first container that reports ErrImagePull has no message; the caller's expect_err never fails otherwise |
| Pods.ErrImagePullTells | k8s/library/k8s/src/pod.rs:200-248 | tells a message if and only if it is that of the first container reporting ErrImagePull, and nothing exactly if no container reports it |
| Pods.QuestionsAnswered | k8s/library/k8s/src/pod.rs:132-198 | running, terminated, crashed and image-pull questions hold exactly if some container that tells its state says so |
| Pods.AddressIs | k8s/library/k8s/src/pod.rs:79-130 | an address is had exactly if nothing is missing, and is the pod's own IP and namespace and the first port of its first container |
| Pods.AddressFailsFirst | k8s/library/k8s/src/pod.rs:79-130 | an address fails with exactly the first thing lacking, in the order asked for |
| Pods.ErrImagePullCanPanic | k8s/library/k8s/src/pod.rs:225-243 | a pod that reaches the branch and panics it |
| PodManager.SuccessIsCertified | k8s/service/acm/src/podmanager/event_watcher.rs:138-319 | in every interleaving `wait` returns a pod only if that pod was observed running, the checker connected to its address afterwards, and it was reported with no Deleted or Restarted consumed since |
| EventStream.ConsumedIsEmitted | k8s/service/acm/src/podmanager/event_watcher.rs:61-72 | in every run the event watcher has consumed exactly what the list/watch machine emits over the answers the API gave, in order |
| PodManager.LeaseOutlastsCheck | k8s/service/acm/src/main.rs:103-109 | the ticket returned with a pod was created after its health check succeeded and is good for a full TTL from then |
| Readiness.EveryPodGetsATicket | k8s/service/acm/src/main.rs:103-109 | conservation: as long as the collector lives, pods handed out by `wait` and tickets handed out with them are equal in number, but for the one handler just getting its ticket |
| Readiness.HandlersAreConserved | k8s/service/acm/src/main.rs:103-136 | every handler that got the manager waits for its lock or has made its one call |
| PodManager.RefreshIsFresh | k8s/service/acm/src/podmanager/garbage_collector.rs:160-170 | a refresh yields a ticket made after it was asked for, or none, and then only because the collector is gone |
| PodManager.SignalsAreExact | k8s/service/acm/src/podmanager/event_watcher.rs:138-158 | a watcher that returns has sent exactly [Terminated] or [Running, Terminated], the latter for a pod that ran |
| PodManager.BugBranchesNeedPanics | k8s/service/acm/src/podmanager/garbage_collector.rs:199-314 | of the branches commented as bugs four are unreachable even if the collector panics and three need a panic of the watcher or the checker; the end of the event stream is no move at all, as the stream is an unfolding without one |
| PodManager.BugsAreNotReported | k8s/service/acm/src/podmanager/event_watcher.rs:150-157 | no client is told of an unresponsive collector or a closed event stream, nor of a dropped health check unless the checker was made to panic |
| PodManager.ResultsAreExact | k8s/service/acm/src/podmanager/external_handle.rs:23-59 | one result before leaving phase 2 and at most one failure in phase 3; a client gets the first of them unless patience ran out or the watcher died |
| PodManager.NoSendIsStuck | k8s/service/acm/src/podmanager/event_watcher.rs:389-422 | every send of the watcher can go ahead, at once or as soon as the shim has emptied the channel |
| PodManager.NoPodIsLeaked | k8s/service/acm/src/podmanager/event_watcher.rs:367-414 | a watcher that returns has requested the deletion or consumed Deleted; one that dies in between is covered by the collector, which deletes exactly when the go-ahead is all it heard |
| PodManager.EarlyDeathLeaksPod | k8s/service/acm/src/podmanager/garbage_collector.rs:199-208 | a run in which the watcher dies before announcing the pod and the collector exits without a deletion |
| PodManager.LateDeathLeaksPod | k8s/service/acm/src/podmanager/event_watcher.rs:391-392 | a run in which the watcher dies between stopping the collector and deleting the pod, which is then left behind |
| PodManager.LeakedExactly | k8s/service/acm/src/podmanager/garbage_collector.rs:199-320 | once both are gone, the pod was left behind only if the watcher died, and then if and only if the collector exited having heard nothing or of the end, or panicked before it asked for the deletion |
| PodManager.TicketsAreHonoured | k8s/service/acm/src/podmanager/garbage_collector.rs:237-320 | every ticket is good for exactly the TTL, expiries never decrease, no timeout deletion precedes the expiry of any ticket of the run, and when armed the label is the current ticket's |
| Readiness.CollectorIsPrompt | k8s/service/acm/src/podmanager/garbage_collector.rs:247-320 | in every run the collector can hear whatever it was told or that the watcher is gone, serve whoever asks, and time the pod out from the very moment the last ticket expires |
| Readiness.RefreshNeverHangs | k8s/service/acm/src/podmanager/garbage_collector.rs:160-170 | a client that wants a ticket can ask, be served or take its answer, unless the collector has something of its own to get on with or still awaits the go-ahead |
| PodManager.CheckerIsConsumedOnce | k8s/service/acm/src/podmanager/server_check.rs:43-76 | out of phase 2 the checker has been killed or joined exactly once and has finished; its sends fail only if the watcher panicked |
| PodManager.FirstOutcomeIsFinal | k8s/service/acm/src/podmanager/external_handle.rs:61-81 | after a pod every later `wait` returns that pod, after an error every later one is a phantom error |
| PodManager.WaitNeverHangs | k8s/service/acm/src/podmanager/external_handle.rs:37-71 | once the shim holds a result a waiting client always has a helpful move, nobody can undo its progress, and it stops waiting only by returning |
| Readiness.ShimIsPrompt | k8s/service/acm/src/podmanager/external_handle.rs:28-51 | the shim can take a result once there is one, leave at its deadline, pass once a client came, and forward |
| Readiness.PatienceIsExact | k8s/service/acm/src/podmanager/external_handle.rs:37-46 | patience ends sixty seconds after the result was taken, no sooner and no later |
| Readiness.ClientIsPrompt | k8s/service/acm/src/podmanager/external_handle.rs:61-81 | a client can get a manager while a coroutine lives, pass once the shim came, receive once it is over, ask, and take its answer |
| Readiness.CheckerIsPrompt | k8s/service/acm/src/podmanager/server_check.rs:97-157 | whatever becomes of a connection, and whenever the interrupt comes, the checker can take it |
| Readiness.WatcherIsPrompt | k8s/service/acm/src/podmanager/event_watcher.rs:220-226 | the watcher can take any answer of the API and hear a checker that is done |
| PodManager.RebootNeedsGone | k8s/service/acm/src/podmanager/event_watcher.rs:253-258 | a reboot is reported only after the running pod's watch expired with a 410 and the re-list was consumed, in that order |
| Attention.NothingIsIgnored | k8s/service/acm/src/podmanager/event_watcher.rs:107-205 | the converse of the causes, over every run: a consumed Deleted, an ended pod or failed image pull shown before the pod ran, or a re-list after it did, and the watcher is on its way out; once the pod was seen running phase 1 is over |
| Attention.GivesUpWhenRefused | k8s/service/acm/src/podmanager/event_watcher.rs:74-88 | a failure of the API with no delay granted ends the watch |
| Attention.UnparsedIsHeeded | k8s/service/acm/src/podmanager/event_watcher.rs:211-217 | a pod whose address does not parse is never checked, let alone reported |
| Attention.NoAddressIsHeeded | k8s/service/acm/src/podmanager/event_watcher.rs:211-217 | nor is one that has no address |
| Attention.FailuresAreSleptOff | k8s/service/acm/src/podmanager/event_watcher.rs:75-79 | with a delay granted, the watcher sleeps before it polls again |
| Causes.OnlyTheseFollow | k8s/service/acm/src/podmanager/event_watcher.rs:331-384 | after a success only an unresponsive API or a reboot is ever reported |
| Causes.FailureHasItsCause | k8s/service/acm/src/podmanager/event_watcher.rs:71-384 | every failure ever reported, in every run, has its cause: an item consumed that stands for it (for a crash or a failed pull, before the pod was seen running), an API failure with no delay granted, an address that did not parse, a check refused and out of delays or out of time, a re-list after a 410, or a panic of the checker; no other failure is reported |
| Causes.ShowsOne | k8s/service/acm/src/podmanager/event_watcher.rs:107-205 | an item of the event stream stands for at most one failure |
| Causes.ItemShows | k8s/service/acm/src/podmanager/event_watcher.rs:73-206 | whatever phase the watcher is in, what it fails with on an item is what that item stands for |
| Causes.CauseStep | k8s/service/acm/src/podmanager/event_watcher.rs:138-320 | no move of anyone puts the blame on a failure without its cause |
| PodManager.EntryFollowsTasks | k8s/service/acm/src/podmanager/mod.rs:91-118 | a registered entry is retrievable while any of the three joined coroutines lives, the manager outlives the collector, and an entry is there if and only if it was registered and its cleanup has not run since |
| PodManager.LateEntryIsNeverRemoved | k8s/service/acm/src/podmanager/mod.rs:101-118 | an entry inserted after its cleanup stays, and that takes at least the shim's sixty seconds |
| PodManager.LateRegistrationCanHappen | k8s/service/acm/src/podmanager/mod.rs:101-118 | a run without panics in which it does |
| PodManager.InvStep | k8s/service/acm/src/podmanager/mod.rs:66-119 | every move of every coroutine, client, clock and cleanup keeps the whole invariant |
| Signals.SignalStep | k8s/service/acm/src/podmanager/event_watcher.rs:397-408 | no signal is lost while the collector lives and none is invented, move by move |
| Results.ResultStep | k8s/service/acm/src/podmanager/external_handle.rs:13-51 | the shim holds the first result there ever was, move by move |
| Results.WaitStep | k8s/service/acm/src/podmanager/external_handle.rs:39-80 | both parties arrive at the barrier once and pass as soon as both have; the one result is handed over once and remembered |
| Results.PatienceStep | k8s/service/acm/src/podmanager/external_handle.rs:37-46 | a client is told something other than the shim's result only after the shim's patience |
| Checks.CheckerStep | k8s/service/acm/src/podmanager/event_watcher.rs:211-320 | where the checker may be by where the watcher is, and why it ended, move by move |
| Tickets.TicketStep | k8s/service/acm/src/podmanager/garbage_collector.rs:247-321 | dates, current ticket, label, timeouts and replies stay consistent, move by move |
| Evidence.ReportStep | k8s/service/acm/src/podmanager/event_watcher.rs:297-302 | a reported success is backed by evidence in the log |
| Evidence.AnswerStep | k8s/service/acm/src/main.rs:103-109 | so is everything clients are told later |
| Endings.RelistStep | k8s/service/acm/src/podmanager/event_watcher.rs:375-379 | past the sighting the stream is empty only after a 410 |
| Endings.DeleteStep | k8s/service/acm/src/podmanager/garbage_collector.rs:290-319 | who has deleted what by the time they leave |
| Endings.CacheStep | k8s/service/acm/src/podmanager/mod.rs:101-118 | presence in the cache follows registration and cleanup, and the refresh channel never closes on a live collector |
| WindDown.CanAlwaysWindDown | k8s/service/acm/src/podmanager/mod.rs:92-114 | no deadlock: from every reachable state a bounded, panic-free continuation ends all coroutines and runs the cleanup |
| WindDown.NextStepApproaches | k8s/service/acm/src/podmanager/mod.rs:101-103 | in every state some move is enabled that is no panic and brings the cleanup closer |
| Deployments.Projection | k8s/service/acm/src/podmanager/mod.rs:66-119 | among any number of deployments each one is a run of the protocol by itself |
| Deployments.FoundWhileAlive | k8s/service/acm/src/podmanager/mod.rs:44-56 | `get` finds a registered manager while any of its coroutines lives, and exactly until its cleanup unless it was registered only after that |
| Deployments.CacheDrains | k8s/service/acm/src/podmanager/mod.rs:98-108 | once every cleanup has run the cache is empty if and only if no manager was registered after its own cleanup |
| Deployments.NeverReturns | k8s/service/acm/src/podmanager/mod.rs:104-108 | an entry that was registered and is gone never comes back, whatever follows |
| Tasks.Runtime.Watch | k8s/service/acm/src/podmanager/event_watcher.rs:58-385 | the three phases make a run of the protocol and are carried on until the watcher ends, its allowance of moves is used up, or it waits for the checker to end or for the shim, which can go ahead; on return signals, results and deletion are as they should be, and every failure reported has its cause |
| Tasks.Runtime.WatchPhase1 | k8s/service/acm/src/podmanager/event_watcher.rs:71-207 | carried on until the watcher is halted, sees the pod run, or ends; onward the collector has been told and the check of the pod's address started; on return exactly the failure that the item consumed stands for was reported and the pod deleted |
| Tasks.Runtime.WatchPhase2 | k8s/service/acm/src/podmanager/event_watcher.rs:220-322 | carried on until the watcher is halted, has reported the very pod as a success, or ends: on an item, with exactly the failure it stands for, or on the check's word, with exactly what it makes of it; then the collector is told and the pod deleted |
| Tasks.Runtime.OnEventInPhase2 | k8s/service/acm/src/podmanager/event_watcher.rs:228-275 | goes on after a harmless event or a pause, otherwise ends on that item with the failure it stands for |
| Tasks.Runtime.WatchPhase3 | k8s/service/acm/src/podmanager/event_watcher.rs:331-384 | carried on until the watcher is halted or ends, having told the collector: on a Deleted with nothing more to report, or with exactly the failure the item consumed stands for and the pod deleted |
| Tasks.Runtime.Close | k8s/service/acm/src/podmanager/event_watcher.rs:368-374 | stops the collector and reports nothing more |
| Tasks.Runtime.OnHealth | k8s/service/acm/src/podmanager/event_watcher.rs:276-320 | the checker is joined, then its verdict decides: the pod is reported, or exactly the failure it found or its silence stands for, with the collector told and the pod deleted |
| Tasks.Runtime.SendSuccess | k8s/service/acm/src/podmanager/event_watcher.rs:302-318 | reports the pod and goes on, or, with no one listening, stops the collector and deletes the pod |
| Tasks.Runtime.OnRunning | k8s/service/acm/src/podmanager/event_watcher.rs:138-217 | the pod is announced and its check started, or the watcher terminates with what stood in the way: the error in its address, or an address that does not parse, and nothing else |
| Tasks.Runtime.OnErrImagePull | k8s/service/acm/src/podmanager/event_watcher.rs:197-203 | reports exactly the message of the first container that reports ErrImagePull and deletes the pod, or panics at the unwrap, exactly when that container gives none |
| Tasks.Runtime.StartCheck | k8s/service/acm/src/podmanager/event_watcher.rs:138-217 | the collector is told before the check starts; each failure comes with its cause: collector gone, no address, address that does not parse |
| Tasks.Runtime.Terminate | k8s/service/acm/src/podmanager/event_watcher.rs:389-393 | ends the watcher with exactly the given failure, then Terminated, then the deletion; short of that it is halted on the way |
| Tasks.Runtime.TerminateOn | k8s/service/acm/src/podmanager/event_watcher.rs:117-126 | terminates on an item just consumed with the failure it stands for |
| Tasks.Runtime.KillAndTerminate | k8s/service/acm/src/podmanager/event_watcher.rs:238-270 | the same in phase 2, once the check has been killed and has ended |
| Tasks.Runtime.KillGcAndPod | k8s/service/acm/src/podmanager/event_watcher.rs:397-414 | Terminated goes to the collector, then the deletion is requested; no result is reported |
| Tasks.Runtime.TryNext | k8s/service/acm/src/podmanager/event_watcher.rs:72-90 | polls until the stream emits, hands over the item just logged as consumed and moves the watcher as that item demands; it gives up only with its moves used up |
| Tasks.Runtime.Gc | k8s/service/acm/src/podmanager/garbage_collector.rs:190-323 | the two phases make a run of the protocol and are carried on until the collector is gone, its moves are used up, or it has heard all it was told and, if armed, no one asks and the last ticket is still good; a timeout deletion cuts no ticket short, and an exit comes with a deletion exactly when only the go-ahead was heard |
| Tasks.Runtime.GcPhase1 | k8s/service/acm/src/podmanager/garbage_collector.rs:199-237 | leaves on Terminated or a dead watcher with no ticket issued, or panics making its client after the go-ahead; goes on only after the go-ahead, with the first ticket |
| Tasks.Runtime.GcRound | k8s/service/acm/src/podmanager/garbage_collector.rs:247-321 | at the loop head the recorded date is the current ticket's, and so it is at the next; any ready branch of the select may be taken, and it waits only before the last expiry, with nothing unheard and no one asking |
| Tasks.Runtime.ServeRefresh | k8s/service/acm/src/podmanager/garbage_collector.rs:261-289 | a request is answered with a new ticket that is then recorded |
| Tasks.Runtime.HearStatus | k8s/service/acm/src/podmanager/garbage_collector.rs:290-314 | Terminated ends the collector, silence of a dead watcher makes it delete the pod, a superfluous Running is passed over |
| Tasks.Runtime.GcPhase2 | k8s/service/acm/src/podmanager/garbage_collector.rs:243-322 | carried on until the collector is gone or halted; it exits only on Terminated or with a deletion requested |
| Tasks.Runtime.Shim | k8s/service/acm/src/podmanager/external_handle.rs:28-51 | take the first result the watcher sent, meet a client or lose patience, forward; it leaves without forwarding only past its deadline, and waits only for a result of a live watcher, or for a client before its deadline |
| Tasks.Runtime.Wait | k8s/service/acm/src/podmanager/external_handle.rs:61-81 | answers at once from memory if anything was remembered; otherwise what the shim hands over is the outcome and is remembered; it waits only for a shim that has no result yet or has not handed it over |
| Tasks.Runtime.WaitEndpoint | k8s/service/acm/src/main.rs:103-109 | a pod comes with a ticket that outlasts its health check by a full TTL; it answers without one only if `wait` failed or the collector is gone |
| Tasks.Runtime.Refresh | k8s/service/acm/src/podmanager/garbage_collector.rs:160-170 | the ticket the collector gave for this request, or none because the collector is gone |
| Tasks.Runtime.RefreshEndpoint | k8s/service/acm/src/main.rs:128-136 | a ticket created after the request with a full TTL from there, or none because the collector is gone |
| Tasks.WatcherWaitsFor | k8s/service/acm/src/podmanager/event_watcher.rs:389-422 | in every run a live watcher that cannot move waits for the checker to end, or for the shim, which can take its result |
| ServerCheck.Check | k8s/service/acm/src/podmanager/server_check.rs:89-182 | for any policy, network and interrupt: goes on exactly while rounds are refused and the policy grants a delay; decides within thirty seconds plus the last delay, in at most floor(30 s / least delay) + 1 rounds and no later than the interrupt; the verdict says how the last round ended, and the unwrap of the last error is safe |
| ServerCheck.Turn | k8s/service/acm/src/podmanager/server_check.rs:115-157 | a round ends with whatever comes first, the interrupt, the end of patience or the answer to its attempt, and as that answer says |
| ServerCheck.RoundsBound | k8s/service/acm/src/podmanager/server_check.rs:97-98 | at most floor(30 s / least delay) + 1 rounds |
| CheckRun.CheckIsARun | k8s/service/acm/src/podmanager/server_check.rs:89-182 | every course of the timed loop is a run of the protocol's checker, with the clock showing the time taken and the watcher finding the verdict |
| CheckRun.CheckInPhase2 | k8s/service/acm/src/podmanager/server_check.rs:97-182 | from any reachable start of the check the loop takes the protocol to a decided state within its bounds of time and rounds |
| Names.Rfc1123Subdomain | k8s/library/names/src/lib.rs:64-92 | for every string: panics exactly if a prefix over 54 bytes cannot be cut there; else exactly min(63, prefix + 33) bytes, the prefix cut to 54, a hyphen and at least eight leading digits of the UUID; the default prefix with the whole UUID if there is no letter or digit; a label if and only if what was kept is ASCII, as for every phrase without letters beyond ASCII |
| Names.KebabIsHyphenated | k8s/library/names/src/lib.rs:66-72 | no hyphen at either end and no two in a row, wherever words are cut; a label if and only if it is ASCII |
| Names.KebabJoins | k8s/library/names/src/lib.rs:66-72 | where the hyphens are: cut a phrase anywhere, and there is one in between exactly if both parts have a letter or digit and anything else, or a cut, is where they meet |
| Names.WordsAreJoined | k8s/library/names/src/lib.rs:34-38 | words apart are joined by one hyphen, whatever stands between them |
| Names.LowerIs | k8s/library/names/src/lib.rs:66-72 | capitals go to the small letter at their place in the alphabet, other ASCII letters and digits stay |
| Names.WidthIsEncoded | k8s/library/names/src/lib.rs:77-86 | a character counts for as many bytes as its UTF-8 encoding, from which it is read back |
| Names.KebabKeepsLetters | k8s/library/names/src/lib.rs:34-38 | without its hyphens the normalised phrase is the phrase's letters and digits, in order and in lower case |
| Names.TruncatePanicsExactly | k8s/library/names/src/lib.rs:81 | the truncation panics if and only if no prefix has exactly that many bytes |
| Names.ForeignLetterIsKept | k8s/library/names/src/lib.rs:66-72 | a letter beyond ASCII is kept, and makes the name no label |
| Names.TruncationCanPanic | k8s/library/names/src/lib.rs:81 | a phrase on which the truncation panics |
| Names.NamesDiffer | k8s/library/names/src/lib.rs:31-44 | two names for one phrase coincide only if the UUIDs share their first eight digits |
| Names.Rfc1035Label | k8s/library/names/src/lib.rs:20-27 | a label that starts with a letter, the given one if the UUID does not, and is the UUID but for that |
| Listing.RoundTrip | k8s/service/aim/src/registry/containerd/import.rs:86-126 | a printed and trimmed listing is read back with its reference, tag and digest if and only if it is readable: with a digest, the first two columns are as wide as their headings (or the reference has two characters and the type equals the digest); without one, the third cell is neither trimmed away nor taken by the type |
| Listing.NarrowTypeIsMisread | k8s/service/aim/src/registry/containerd/import.rs:107-115 | a listing that is misread: a type narrower than its heading makes the digest empty |
| Listing.ReferenceIsRead | k8s/service/aim/src/registry/containerd/import.rs:107-124 | whatever the widths, an image that is read at all is read with its own reference and tag |
| Listing.DigestIsRead | k8s/service/aim/src/registry/containerd/import.rs:107-115 | and with its own digest if and only if it is readable |
| Listing.HeaderOnlyIsNoData | k8s/service/aim/src/registry/containerd/import.rs:90-99 | a table with no rows is always NoData |
| Listing.MoreRowsAreRefused | k8s/service/aim/src/registry/containerd/import.rs:100-106 | a table of two rows or more is always refused |
| Listing.UntaggedIsRefused | k8s/service/aim/src/registry/containerd/import.rs:116-124 | a reference without a tag is refused and named |
| Listing.LastColon | k8s/service/aim/src/registry/containerd/import.rs:116-117 | the tag is what follows the last colon |
| Containerd.NothingIsForgotten | k8s/service/aim/src/registry/containerd/tmp_image.rs:35-71 | once metadata is extracted every reference present is owned or has a removal, at every moment and on every exit path; none is owned at exit |
| Containerd.NamespaceGoesLast | k8s/service/aim/src/registry/containerd/namespace.rs:47-88 | the namespace is removed only after every reference is gone |
| Containerd.NamespaceCanGo | k8s/service/aim/src/registry/containerd/namespace.rs:34-42 | once all removals have succeeded nothing stands in its way |
| Containerd.ReturnedImageIsTheImported | k8s/service/aim/src/registry/containerd/retag.rs:38-47 | what is pushed has the imported digest and the returned tag, both temporary images were dropped exactly once, and the returned digest is the imported one if and only if the listing it was parsed from is readable |
| Containerd.ListedIsImported | k8s/service/aim/src/registry/containerd/import.rs:41-51 | the listed image is the one that was imported |
| Containerd.WrongDigestCanHappen | k8s/service/aim/src/registry/containerd/import.rs:64-74 | a run in which the returned digest is not the imported one |
| Containerd.CoveredExactlyWhenExtracted | k8s/service/aim/src/registry/containerd/import.rs:41-52 | at exit every reference is answered for if and only if the metadata was extracted or nothing was imported |
| Containerd.UnextractedImageIsOrphaned | k8s/service/aim/src/registry/containerd/import.rs:64-74 | otherwise the references stay for ever and the namespace can never be removed |
| Containerd.OrphanCanHappen | k8s/service/aim/src/registry/containerd/import.rs:50-52 | a run in which that happens |
| Containerd.InvStep | k8s/service/aim/src/registry/containerd/mod.rs:59-69 | every step of workflow and removals keeps coverage, digest and the count of drops |
| Importer.Engine.ImportImage | k8s/service/aim/src/registry/containerd/mod.rs:59-69 | the whole workflow: on every exit each reference has its removal once metadata was extracted; a returned image was pushed under the new tag with the imported digest, which is the digest returned if and only if the listing was readable |
| Importer.Engine.ImportPath | k8s/service/aim/src/registry/containerd/import.rs:35-53 | hands over the one image of the namespace as its listing reads, or has ended the workflow |
| Importer.Engine.ExtractImageMetadata | k8s/service/aim/src/registry/containerd/import.rs:64-74 | an image is handed over if and only if the listing parses, with the reference listed and, exactly if readable, the digest |
| Importer.Engine.RetagImage | k8s/service/aim/src/registry/containerd/retag.rs:24-48 | the digest is kept under the new reference, and the first image is dropped whether or not it succeeds |
| Importer.Engine.PushImage | k8s/service/aim/src/registry/containerd/push.rs:15-21 | consumes the image either way, and returns its tag and digest only if it was pushed |
| Importer.Engine.DropImage | k8s/service/aim/src/registry/containerd/tmp_image.rs:40-69 | at most one attempt more than pauses granted; ends with the reference gone, or gives up only after every attempt failed |
| Importer.Engine.DropNamespace | k8s/service/aim/src/registry/containerd/namespace.rs:51-86 | the same bound; succeeds only with every reference gone, and no reference appears meanwhile |

## Left out

- Error types, HTTP codes, the derive macros and the JSON responders: mechanical.
- The ECR and Minikube registries, the Kubernetes client and process execution beyond its trimming of output: clients of foreign systems.
- Logging, log streaming, terminal colours and the display of secrets: presentation only.
- Wall-clock formatting of tickets, and TTLs large enough to overflow the clock types: the clock is a natural number of milliseconds.
- The text of a pod's address: `Address` keeps the IP, namespace and port it is built from, and whether the result parses as a URI is left open.
- The locks around the cache and around a manager: at most one handler holds a manager, and cache updates are atomic; the cache is a value and not an object.
- Select between futures that are ready at once is a free choice; fairness of the scheduler is not modelled, so what eventually happens is stated as helpful moves and bounded continuations, and a coroutine is followed only until it is done, blocked or out of its allowance of moves.
- The backoff's fifteen minutes for Kubernetes failures: giving up is possible at every failure, which only adds runs.
- The exponential backoff of the background removals is a number of granted pauses: their length plays no part in what is claimed.
- Which characters beyond ASCII are letters, and their lower case, are parameters: Unicode's tables are not part of this model.
- Listings are taken as containerd prints them: a reference that is not empty, and no white space inside the cells that are read.
- White space is blank, tab and the two line breaks: what else Unicode counts as white space would be trimmed from the end of a listing too.
- Lower case is taken character by character: that a capital sigma at the end of a word has a form of its own is not modelled.
