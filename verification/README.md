# Verified models of the kernel's protocols

A Dafny model of the hard parts of the kernel: waking lazy plugins, the pending-action table
and its composition over a bridge, the registry's indexes, reconnects, fragment reassembly,
load order, the supervisor's restarts, single-use tickets, and the civil-date arithmetic.

Each protocol is a state machine. A step is one handler branch or one registry call, and a run is
any interleaving of enabled steps. The router's lookup, its gate check and its insertion are steps
of their own, as are a relay's insertion and its end, the parts of a removal, and the idle sweep's
decision and its gate; which handlers are taken as one step is listed under "Left out". Where the
source is a struct changed in place, a class with the same fields and loops is proved to take
exactly those steps.

| file | what it models |
|---|---|
| `lazy_wake.dfy` | router, waker, gates, start and stop tasks as one state machine |
| `lazy_conservation.dfy`, `lazy_tasks.dfy`, `lazy_ordering.dfy` | what every run of it keeps |
| `lazy_idle.dfy` | when the idle sweep stops a plugin, from the events of the run |
| `lazy_limits.dfy` | runs that show each condition of those theorems is needed |
| `lazy_effects.dfy`, `lazy_starter.dfy` | what a poll and a sweep do to each plugin; the waker's handlers and the router's side as code |
| `pending_actions.dfy`, `pending_answers.dfy`, `pending_runs.dfy` | the pending-action protocol; what every state keeps, and what requesters are told over a run |
| `pending_limits.dfy`, `pending_table.dfy` | runs that show where its guarantees end; the table and the router's arms as code |
| `relay.dfy`, `relay_proofs.dfy`, `relay_delivery.dfy` | two kernels joined by the bridge: answers go only where they belong, and they arrive |
| `action_index.dfy` | the registry's connection map, action index and dormant index |
| `reconnect.dfy` | registration against removals in progress |
| `reassembly.dfy`, `fragment_streams.dfy`, `fragment_reader.dfy` | fragment reassembly on one connection, told from the frames alone, and as code |
| `topo_graph.dfy`, `topo_loop.dfy`, `topo_limits.dfy` | dependency graphs, Kahn's loop on any ids, what repeated ids do |
| `topo_sort.dfy` | dependency filtering, the sort and the load order as code |
| `supervisor.dfy`, `supervisor_code.dfy` | epochs, backoff, restarts; the handlers and the monitor loop |
| `tickets.dfy` | the ticket store |
| `calendar.dfy` | epoch seconds to a civil date |
| `collections.dfy` | facts about sequences and sets the models share |

Modelling choices: clocks are `nat`, read where the code reads them. Ids, hashes and payload addresses
are opaque numbers; ids the kernel mints and connection ids are never reused. Permission checks,
rate limits, full channels and failed spawns are arbitrary answers given to a step. Map iteration
order never matters: multi-entry removals are specified by the set they remove.

Where the code does less than one might expect, the model follows the code, gives a run or an
input, and says when the property does hold:

- The replace-subtraction of `connection.rs` line 289 goes below zero, exactly when a sequence is
  sent again with fewer bytes than came last under it (`ShrinksIffShorter`, `ShorterResend`). In
  wrapping 64-bit arithmetic the counter is still right afterwards (`CountAfter`); in a build with
  overflow checks the subtraction panics.
- An explicit stop is terminal, and a restart replaces only its own instance, exactly when a
  backoff window sees at most one stop (`RespawnReplacesOwn`, `StopsHoldStep`, `TwoStopsRevive`,
  `TwoStopsOverrun`).
- An action that leaves unaccepted is answered exactly once, unless its relay is withdrawn after a
  removal has taken its entry and answered it; then the requester gets two responses under one id
  (`OneAnswerPerRequest`, `WithdrawnAfterRemoval`, `RelayAnsweredTwice`).
- A pending action is off the registration it was routed to exactly when a removal overtook the
  router between lookup and insertion, or a removal has freed the id and not failed its actions yet;
  in both cases a re-registered plugin can answer it (`UnboundIff`, `ReregisteredResolves`,
  `RemovalUnderWayResolves`).
- An idle stop is safe exactly when, as the sweep takes the gate, no call to the plugin is pending
  or between gate and table, and none the gate still allows is in the router's channel or found live
  (`IdleStopSafeIff`, `PassedBeforeTheGate`, `AllowedAcrossTheStop`).
- Wake order needs the plugin to stay registered and its allowances not to be dropped; without
  either one it is lost (`ReregistrationOvertakes`, `DroppedAllowanceOvertakes`).
- One lifecycle task per plugin needs start tasks to report before their slot is drained
  (`DrainKeepsOneTask`, `LateStartOverlaps`).
- A live plugin keeps an action in the index exactly when no removal of an earlier registration of
  its id has still to unindex that action (`KeepsActionIff`, `LiveWithoutAction`).
- The sort's loop ends for distinct ids and for every graph without a cycle (`DistinctEnds`,
  `AcyclicEnds`); with a repeated id and a cycle it may run for ever (`RepeatedIdLoops`), and with
  a repeated id alone it may start a plugin before one it requires (`RepeatedIdMisorders`).
  Configuration loading rejects a drop-in file whose id is already taken, by an inline entry or
  another drop-in; two inline entries with one id pass.

## Model

| member | source | states |
|---|---|---|
| `LazyConservation.WakeConservation` | src/plugins/lazy.rs:196-379 | In every reachable state each call that arrived is in exactly one place; the wake requests taken are exactly those queued, being re-injected, re-injected or answered with an error; no queue exceeds its cap |
| `LazyConservation.OpenSlotHoldsGate` | src/plugins/lazy.rs:82-91 | In every reachable state a slot not marked to be stopped after a timeout holds its gate |
| `LazyConservation.InvStep` | src/plugins/lazy.rs:156-428 | Every step of router, waker, tasks and environment keeps conservation, queue ownership, the caps and the gates |
| `LazyOrdering.WakeOrdering` | src/plugins/lazy.rs:337-428 | However the system runs on while the plugin stays registered and none of its allowances is dropped, idle sweeps included, the calls held in a slot that drains take the live path in arrival order, and no call first seen after the gate was taken goes before them |
| `LazyOrdering.DrainInOrder` | src/plugins/lazy.rs:355-359 | Draining puts the held calls next in line for the live path |
| `LazyOrdering.ServeInOrder` | src/ipc/protocol/router.rs:781-791 | A call that passes the gate takes the front of that line |
| `LazyOrdering.GateInOrder` | src/plugins/lazy.rs:360-378 | A report, a timeout or a trim that lets a gate go without dropping an allowance does so only when all held calls have gone |
| `LazyTasks.OneLifecycleTask` | src/plugins/lazy.rs:242-335 | With prompt starts at most one start or stop task per plugin is in flight, the slot's flags say which, and a slot that waits to be stopped has exactly one |
| `LazyTasks.DrainKeepsOneTask` | src/plugins/lazy.rs:355-359 | Draining keeps one task per plugin if and only if the slot's start task has reported |
| `LazyTasks.IdleStopIsSafe` | src/plugins/lazy.rs:385-416 | From the moment the sweep takes the gate, with no call pending, past it or allowed through it, until the stop completes, nothing becomes pending on the plugin, no call to it takes the live path, and each call not served is on its way, queued or answered |
| `LazyTasks.IdleStopSafeIff` | src/ipc/protocol/router.rs:782-912 | For every state in which the sweep is about to take the gate: nothing becomes pending in any run of the stop if and only if no call is pending or between gate and table, and no allowed call is in the router's channel or in its hands and found live |
| `LazyTasks.IdleQueueKept` | src/plugins/lazy.rs:196-251 | Calls that wait in the slot of a plugin being stopped keep their order |
| `LazyTasks.CompletedStopRewakes` | src/plugins/lazy.rs:317-335 | When a stop completes, waiting calls are kept in order behind the gate with exactly one new start, or the slot is gone |
| `LazyIdle.DecidesIff` | src/plugins/lazy.rs:385-416 | Over every run from the start the sweep may decide to stop a plugin if and only if the waker is idle, the plugin is lazy, live and slotless, every call to it that entered the pending table has left it, and its last use lies at least its `idle_stop` back |
| `LazyIdle.LastUse` | src/plugins/registry.rs:615-632 | Over every run a lazy plugin's clock shows its last use: a call admitted, an answer passed on, a wake, or the start of the clock |
| `LazyIdle.PendingRun` | src/plugins/registry.rs:634-639 | Over every run a call is in the table if and only if it was admitted and nothing has removed it since |
| `LazyEffects.PollDoes` | src/plugins/lazy.rs:337-379 | A whole poll: watched slots of live plugins are drained and their calls sent back and allowed; watched slots as old as the start timeout are timed out and their gates let go; every other slot keeps queue, flags and gate; gates without a slot lose exactly their allowances of five seconds or more |
| `LazyEffects.SweptNext` | src/plugins/lazy.rs:391-415 | The sweep's turn for one plugin, whatever was swept before: a slot and a stop task if it rests, a started clock if it was never used, nothing otherwise |
| `LazyLimits.LateStartOverlaps` | src/plugins/lazy.rs:355-371 | A reachable state with two start tasks for one plugin: prompt starts are needed |
| `LazyLimits.ReregistrationOvertakes` | src/ipc/protocol/router.rs:781-791 | A run from the start in which a later call overtakes an earlier one because the plugin left and came back, with every allowance kept |
| `LazyLimits.DroppedAllowanceOvertakes` | src/plugins/registry.rs:680-688 | A run from the start in which a later call overtakes an earlier one because the earlier allowance went stale, with the plugin registered throughout |
| `LazyLimits.PassedBeforeTheGate` | src/plugins/lazy.rs:385-416 | A reachable state in which a call passes between the sweep's decision and its gate, so that the stop is not safe |
| `LazyLimits.AllowedAcrossTheStop` | src/plugins/lazy.rs:398-416 | A reachable state in which a re-injected call, its allowance fresh, is still in the channel as the stop begins, so that the stop is not safe |
| `LazyStarterCode.LazyStarter.OnWakeRequest` | src/plugins/lazy.rs:196-251 | One step of the protocol: the call joins a queue below 64, fails at 64, goes back allowed or fails if its plugin is live, or opens a slot with one start task behind a gate |
| `LazyStarterCode.LazyStarter.OnStartResult` | src/plugins/lazy.rs:288-315 | One step of the protocol: a late report changes nothing; a slot to be stopped gets its stop task; a good start leaves the slot to the poll; a failed one answers its queue and lets the gate go |
| `LazyStarterCode.LazyStarter.OnStopped` | src/plugins/lazy.rs:317-335 | One step of the protocol: an empty slot and its gate go; one with calls starts again with them, from now |
| `LazyStarterCode.LazyStarter.Classify` | src/plugins/lazy.rs:342-354 | The scan lists exactly the slots that are ready and those that are overdue, each once |
| `LazyStarterCode.LazyStarter.Reinject` | src/plugins/lazy.rs:420-428 | The queue goes to the router in order, each frame allowed at the gate first |
| `LazyStarterCode.LazyStarter.PollWaking` | src/plugins/lazy.rs:337-379 | The poll is a run of the protocol, and does to every slot and gate what `LazyEffects.PollDoes` says |
| `LazyStarterCode.LazyStarter.SweepIdle` | src/plugins/lazy.rs:385-416 | The sweep is a run of the protocol that opens a stopping slot for exactly the live lazy plugins without one whose clock has run for their `idle_stop` and to which no call is pending, and starts the clocks of those never used |
| `LazyStarterCode.LazyStarter.LazyGatePasses` | src/plugins/registry.rs:659-668 | A frame passes when there is no gate or it was allowed; exactly its allowance is then used up |
| `LazyStarterCode.LazyStarter.PassGate` | src/ipc/protocol/router.rs:781-876 | After the lookup the call passes, bounces or is refused exactly as gate, lookup and checks say |
| `LazyStarterCode.LazyStarter.RouteCall` | src/ipc/protocol/router.rs:781-935 | Undisturbed, the arm is a run of the router's steps that leaves the call with its live plugin and pending, with the waker, or answered |
| `PendingAnswers.OneAnswerPerRequest` | src/plugins/registry.rs:768-880 | In every reachable state an action that left unaccepted got exactly one response if and only if no withdrawal of its relay found its entry gone, and two otherwise; a pending unaccepted one got none, an accepted one no made-up one; all go to the requester under its own id |
| `PendingAnswers.LeavesOnce` | src/plugins/registry.rs:463-477 | An entry that has left the table never comes back, over any run |
| `PendingAnswers.ProviderIdentity` | src/plugins/registry.rs:432-461 | In every reachable state an action inserted while its provider held the looked-up registration is still bound to it as long as no removal of it is under way, and exactly that connection acts as its provider |
| `PendingAnswers.UnboundIff` | src/plugins/registry.rs:432-461 | In every reachable state a pending action is off the registration it was routed to if and only if its insertion found the provider off it, or a removal of it has freed the id and not failed its actions yet |
| `PendingLimits.ReregisteredResolves` | src/plugins/registry.rs:453-460 | A reachable state in which a request forwarded to one registration is answered by the next one of the same id |
| `PendingLimits.RemovalUnderWayResolves` | src/plugins/registry.rs:432-461 | A reachable state in which an action inserted in time is answered by the next registration, before the removal of its own has come to the table |
| `PendingLimits.WithdrawnAfterRemoval` | src/ipc/protocol/router.rs:1307-1310 | Whenever a removal comes to the table between a relay's insertion and its failed send, the requester gets an error and then a second answer under the same id |
| `PendingLimits.RelayAnsweredTwice` | src/bridge/mod.rs:469-472 | A reachable state in which that has happened |
| `PendingAnswers.ConcurrencyCap` | src/ipc/protocol/router.rs:844-855 | In every reachable state no caller has more local actions in flight at a provider than the cap |
| `PendingAnswers.StepAnswered` | src/ipc/protocol/router.rs:889-1189 | Every insertion, withdrawal, response, chunk, close, sweep and removal, in any interleaving, keeps the answer record of every id |
| `PendingAnswers.StepBound` | src/plugins/registry.rs:410-461 | Every step, both parts of a removal and insertions it overtook among them, keeps each pending action bound exactly as it was inserted and as removals under way say |
| `PendingRuns.AnswersOverRun` | src/ipc/protocol/router.rs:971-1189 | Over every run from the start the responses issued for an id are exactly those its steps call for, in order and with their statuses: the provider's own, an error when the provider goes, a timeout at the deadline, backpressure when a stream breaks unaccepted, not-found for a withdrawn relay |
| `PendingRuns.StatusesPassedOn` | src/ipc/protocol/router.rs:987-1004 | Over every run the requester is passed exactly the statuses the provider answered, in order |
| `PendingRuns.EntryKept` | src/ipc/protocol/router.rs:894-912 | From its insertion on, over any run, an entry keeps its request's connection, id, sender and streaming flag, the provider the lookup returned, and a deadline the request's timeout away |
| `PendingTableCode.PendingTable.CountPendingActionsFor` | src/plugins/registry.rs:888-898 | The scan counts exactly the entries of the caller at the provider |
| `PendingTableCode.PendingTable.FindPendingInternalId` | src/plugins/registry.rs:915-924 | The scan returns an entry of the requester under that id if and only if there is one |
| `PendingTableCode.PendingTable.FailPendingForProvider` | src/ipc/protocol/helpers.rs:263-285 | Exactly the entries of the provider leave: an accepted session with an abort, any other with an error |
| `PendingTableCode.PendingTable.Register` | src/plugins/registry.rs:177-283 | A free id on a free connection gets a registration of its own, nothing else changes |
| `PendingTableCode.PendingTable.Unregister` | src/plugins/registry.rs:432-461 | The two parts of a removal in order: the id and its connection go, then every entry of the provider fails |
| `PendingTableCode.PendingTable.SweepExpired` | src/plugins/registry.rs:868-880 | Exactly the unaccepted entries whose deadline has come leave, each answered with a timeout |
| `PendingTableCode.PendingTable.SweepIdle` | src/plugins/registry.rs:845-866 | Exactly the accepted sessions idle for longer than allowed leave, with an abort to both sides |
| `PendingTableCode.PendingTable.RequestArm` | src/ipc/protocol/router.rs:844-935 | Routed if and only if permitted and below the cap: an entry with the request's data, forwarded under a fresh id to what the lookup returned, stale or not; refused with the right status otherwise |
| `PendingTableCode.PendingTable.RelayArm` | src/ipc/protocol/router.rs:1254-1314 | The arm inserts and then sends or withdraws, by those two steps of the protocol; a request that came over the bridge is refused |
| `PendingTableCode.PendingTable.WithdrawRelay` | src/ipc/protocol/router.rs:1307-1310 | Whatever happened since the insertion, the withdrawal takes one step: the entry goes if it is there, and the requester is answered |
| `PendingTableCode.PendingTable.ResponseArm` | src/ipc/protocol/router.rs:971-1016 | From the routed provider alone: the response goes to the requester under its own id with its own status, and the entry stays if and only if it is an accepted stream; anything else is dropped |
| `PendingTableCode.PendingTable.ResponseChunkArm` | src/ipc/protocol/router.rs:1070-1112 | A chunk of the provider goes to the requester and counts as activity, or both sides are aborted and an unanswered requester is answered |
| `PendingTableCode.PendingTable.RequestChunkArm` | src/ipc/protocol/router.rs:1018-1068 | A chunk of the requester goes to the live provider and counts as activity, or both sides are aborted and an unanswered requester is answered |
| `PendingTableCode.PendingTable.CloseArm` | src/ipc/protocol/router.rs:1114-1189 | Either side's close removes an accepted session and tells the other side; it does nothing only if the named or picked entry is missing or not accepted, and never where the sender has one entry under the id and could close it |
| `RelayProofs.AnsweredToOrigin` | src/ipc/protocol/router.rs:971-1016 | In every reachable state of two joined kernels each response handed to a plugin answers that plugin's own request under its own id; each answer on the bridge stands for its origin where it goes; a request crosses at most twice, up only once |
| `RelayProofs.MissNotRelayed` | src/ipc/protocol/router.rs:1254-1314 | A request that came over the bridge is never relayed again |
| `RelayProofs.InvStep` | src/bridge/mod.rs:588-692 | Every step of the two kernels and the bridge, stream messages and aborts among them, keeps ids, origins and crossings in step |
| `RelayProofs.LinkUpStep` | src/bridge/mod.rs:419-443 | Bringing the bridge up keeps them |
| `RelayProofs.ResponseStands` | src/ipc/protocol/router.rs:990-1010 | A response goes to an id that stands for the same request, or to the plugin that made it |
| `RelayDelivery.RelayedAnswerArrives` | src/ipc/protocol/router.rs:987-1004 | From every reachable state with the link up some run hands the response the other kernel has logged, with its status, to the plugin that asked, under its own id |
| `RelayDelivery.RefusalArrives` | src/ipc/protocol/router.rs:937-968 | A refusal of the other kernel arrives in the same way |
| `RelayDelivery.OwnAnswerArrives` | src/ipc/protocol/router.rs:987-1004 | From every reachable state, link or no link, some run hands a response the kernel has logged for one of its own plugins to that plugin, with its status |
| `RelayDelivery.OwnRefusalArrives` | src/ipc/protocol/router.rs:937-968 | The same for a refusal |
| `RelayDelivery.RelayedRequestArrives` | src/ipc/protocol/router.rs:1254-1314 | From every reachable state with the link up some run gives a request forwarded over it an entry on the other kernel, under the same origin, bound for any provider its lookup may return |
| `ActionIndex.PluginRegistry.FindActionProvider` | src/plugins/registry.rs:552-588 | The indexed lookup agrees with a scan over every live and dormant manifest |
| `ActionIndex.AgreesIff` | src/plugins/registry.rs:34-45 | Each of the four answers is given if and only if its condition on the declarers holds |
| `ActionIndex.IndexExact` | src/plugins/registry.rs:706-743 | Indexing an action keeps the two maps exact, whoever declares it already |
| `ActionIndex.UnindexExact` | src/plugins/registry.rs:746-766 | Unindexing keeps them exact, and a single remaining declarer becomes unambiguous again |
| `ActionIndex.PluginRegistry.Register` | src/plugins/registry.rs:177-283 | A free id on a free connection is registered and indexed, with repeated actions; the errors in order otherwise |
| `ActionIndex.PluginRegistry.UnregisterIf` | src/plugins/registry.rs:432-446 | The entry leaves both maps and the index exactly if the predicate holds of it |
| `ActionIndex.PluginRegistry.RegisterDormant` | src/plugins/registry.rs:590-601 | The record replaces an earlier one and the dormant index stays exact |
| `ActionIndex.PluginRegistry.DropDormantActions` | src/plugins/registry.rs:690-702 | The record and all its index rows go |
| `Reconnect.MapsInverse` | src/plugins/registry.rs:432-436 | In every interleaving the two connection maps are inverse to each other but for removals half done |
| `Reconnect.OpenSurvives` | src/kernel/orchestrator/shutdown.rs:47-74 | Over any run a registration stays on its connection until that closes or the plugin is stopped |
| `Reconnect.OpenKept` | src/plugins/registry.rs:410-430 | No step of the disconnect loop or of a registration removes an open registration |
| `Reconnect.ReconnectSucceeds` | src/ipc/protocol/router.rs:482-504 | A registration message that finds the holder dead is still being carried out whatever runs before the router registers, and then succeeds with its actions indexed, unless its connection holds one already or the bridge takes the id first |
| `Reconnect.DeadHolderReplaced` | src/ipc/protocol/router.rs:482-504 | From every reachable state in which the holder is dead the router's own steps put the plugin on its new connection with all its actions |
| `Reconnect.DisconnectHandled` | src/kernel/orchestrator/shutdown.rs:47-74 | The disconnect loop's own steps leave nothing registered on a connection whose disconnect was signalled |
| `Reconnect.StopCompletes` | src/plugins/registry.rs:432-446 | A run takes a stopped plugin off both maps and all its actions off the index |
| `Reconnect.KeepsActionIff` | src/plugins/registry.rs:432-446 | A registered plugin keeps an indexed action in every run if and only if no removal of an earlier registration of its id has still to unindex that action |
| `Reconnect.LiveWithoutAction` | src/plugins/registry.rs:432-446 | A reachable state in which a plugin is registered and open and an action it declares is gone from the index |
| `Reconnect.ClaimsStep` | src/bridge/mod.rs:419-445 | Every step but the bridge registering the same id keeps what the router relies on |
| `FragmentStreams.Reassembles` | src/ipc/connection.rs:211-315 | For any arrival order, re-sends and interleaving, well formed and in time, the fragment that covers the stream dispatches exactly one frame, with the latest bytes per sequence in order, and nothing is left behind |
| `FragmentStreams.StaysOpenIff` | src/ipc/connection.rs:211-295 | The connection stays open over a run of frames if and only if each is well formed by the frames before it: a sequence below its total, the total its stream began with or fewer than the cap of unfinished streams in time, and the latest bytes of all its sequences within the payload cap |
| `FragmentStreams.DispatchedExactly` | src/ipc/connection.rs:202-315 | Every frame of every run, with streams that time out, finish and start again: a whole frame dispatches itself, the fragment that completes its stream the latest bytes in order, any other nothing |
| `FragmentStreams.MessageArrives` | src/ipc/connection.rs:50-59 | A message cut into chunks, sent in any order with repeats, comes out whole |
| `Reassembly.ReassemblesFrom` | src/ipc/connection.rs:211-315 | The same from any table in which the stream has no buffer, as long as the connection stays open |
| `Reassembly.RoundTrip` | src/ipc/connection.rs:50-59 | Chunks sent in any order, any of them again, come out as the message |
| `Reassembly.CompleteMeansAll` | src/ipc/connection.rs:45-47 | A buffer is complete by count if and only if it holds every sequence below its total |
| `Reassembly.BoundedRun` | src/ipc/connection.rs:224-295 | In every run keys lie below the total, no stored buffer is complete, bytes and streams stay within their caps |
| `Reassembly.ShrinksIffShorter` | src/ipc/connection.rs:272-290 | New minus replaced length goes below zero if and only if a sequence is sent again with fewer bytes |
| `Reassembly.ShorterResend` | src/ipc/connection.rs:272-290 | Such a fragment is accepted |
| `FragmentReaderCode.Reassemble` | src/ipc/connection.rs:50-59 | Taking the fragments out by least key concatenates them in sequence order |
| `FragmentReaderCode.PruneBufs` | src/ipc/connection.rs:61-80 | Exactly the streams whose time is up are discarded |
| `FragmentReaderCode.FragmentReader.CountAfter` | src/ipc/connection.rs:275-289 | The counter's wrapping sum is the exact number of stored bytes, and the replaced length never exceeds it |
| `FragmentReaderCode.FragmentReader.Check` | src/ipc/connection.rs:224-288 | The checks with the counted size accept exactly what the sum over all fragments allows |
| `FragmentReaderCode.FragmentReader.OnFragment` | src/ipc/connection.rs:211-309 | The connection goes on if and only if the sequence is below the total, the total is the stream's or there is room for a stream, and at most a megabyte is held; the stream is then stored, or handed on whole and gone; no other stream changes |
| `FragmentReaderCode.FragmentReader.OnFrame` | src/ipc/connection.rs:202-315 | A frame prunes, then is stored, dispatched or drops the connection, as the model says |
| `TopoSort.Sort` | src/plugins/loader.rs:287-357 | On every input on which the loop ends no loadable id is left out or refused; with distinct ids Ok is a permutation of the active ids with every counted dependency earlier, and Err lists exactly the blocked ids in order |
| `TopoSort.Degrees` | src/plugins/loader.rs:298-309 | The degrees count each plugin's counted dependencies, repeats included, once for each time the plugin is listed |
| `TopoSort.Reverse` | src/plugins/loader.rs:311-321 | The table lists each plugin under each dependency once for each mention, in order |
| `TopoSort.Release` | src/plugins/loader.rs:332-342 | Counting down dependants is the turn of the model: each mention once, queued at zero |
| `TopoSort.ResolveDeps` | src/plugins/loader.rs:128-157 | Exactly the plugins with a dependency outside the configuration are refused, which leaves no dangling dependency |
| `TopoSort.LoadOrder` | src/plugins/loader.rs:128-172 | With distinct ids dependencies load first unless a plugin reaches a cycle, then exactly those are refused and the rest load in configuration order; with any ids no plugin is refused that reaches no cycle, and none left out |
| `TopoGraph.ClosedBlocked` | src/plugins/loader.rs:345-353 | Where no dependency dangles, an id is blocked if and only if following dependencies reaches a cycle |
| `TopoGraph.OrderedUnblocked` | src/plugins/loader.rs:330-343 | No id of an order with dependencies first is blocked |
| `TopoGraph.StuckBlocked` | src/plugins/loader.rs:345-353 | An id left out while it still needs one left out is blocked |
| `TopoGraph.AcyclicIffRanked` | src/plugins/loader.rs:285-286 | A graph has no cycle if and only if its plugins can be ranked above what they need |
| `TopoLoop.LeftOutBlocked` | src/plugins/loader.rs:330-353 | Whatever ids repeat, an id the loop left out is blocked |
| `TopoLoop.DistinctSorted` | src/plugins/loader.rs:330-353 | With distinct ids the loop orders exactly the unblocked ids, dependencies first |
| `TopoLoop.DistinctEnds` | src/plugins/loader.rs:330-343 | With distinct ids the loop ends, whatever the dependencies and however often they repeat |
| `TopoLoop.AcyclicEnds` | src/plugins/loader.rs:330-343 | Without a cycle the loop ends, whatever ids repeat |
| `TopoLimits.RepeatedIdLoops` | src/plugins/loader.rs:330-343 | With an id configured twice and one that needs it and itself the loop never ends |
| `TopoLimits.RepeatedIdMisorders` | src/plugins/loader.rs:330-343 | With an id configured twice the order may start a plugin before one it requires |
| `Supervisor.PolicyBudget` | src/plugins/supervisor/watchdog.rs:45-60 | In every reachable state the policy has restarted a plugin with an entry at most its maximum since the last manual start |
| `Supervisor.PolicyBudgetRun` | src/plugins/supervisor/watchdog.rs:45-60 | Over every run with at most one stop per window that holds for every plugin, with an entry or without, against its last manual start's maximum |
| `Supervisor.PolicyAnswersCovered` | src/plugins/supervisor/watchdog.rs:45-60 | Over every run each restart the policy decided answers a reported exit of the instance it found, with a restart left, under Always, or under OnFailure after a failure; so many are all that are counted |
| `Supervisor.CoveredExitRestarts` | src/plugins/supervisor/watchdog.rs:45-121 | An unforced exit of the registered instance brings the plugin back with one more restart counted if the policy covers it, and costs it its entry otherwise |
| `Supervisor.RespawnReplacesOwn` | src/plugins/supervisor/watchdog.rs:93-121 | A restart that goes ahead replaces the instance whose exit it answers if and only if its window saw at most one stop |
| `Supervisor.StopIsTerminal` | src/plugins/supervisor/mod.rs:212-224 | Over every run with at most one stop per window no entry appears between a stop and the next manual start |
| `Supervisor.StopsHoldStep` | src/plugins/supervisor/watchdog.rs:93-121 | One step breaks that exactly by a restart after two stops in its window |
| `Supervisor.TwoStopsRevive` | src/plugins/supervisor/mod.rs:218-223 | A run in which two stops in one window bring the plugin back |
| `Supervisor.TwoStopsOverrun` | src/plugins/supervisor/mod.rs:218-223 | Two stops in one window can take a plugin past what its new configuration allows |
| `Supervisor.RestartHonoured` | src/plugins/supervisor/mod.rs:254-268 | A manual restart lasts over any run until an exit of its plugin is taken, and that exit restarts the plugin, whatever the policy, if and only if it is of the registered instance |
| `Supervisor.WindowStep` | src/plugins/supervisor/watchdog.rs:93-121 | Every step keeps what the number of stops says about the sleeping restart |
| `SupervisorCode.PluginSupervisor.SpawnInternal` | src/plugins/supervisor/spawn.rs:44-57 | A manual start refuses while an entry is registered; otherwise a fresh epoch and, if the spawn works, its entry |
| `SupervisorCode.PluginSupervisor.SpawnPlugin` | src/plugins/supervisor/mod.rs:208-210 | One step of the protocol that keeps its invariant: a plugin without an entry gets one under an epoch above all others, and no other entry changes |
| `SupervisorCode.PluginSupervisor.StopPlugin` | src/plugins/supervisor/mod.rs:212-224 | One step of the protocol that keeps its invariant: the plugin has no entry, no other changes, and no exit of the stopped instance is acted on any more |
| `SupervisorCode.PluginSupervisor.RestartPlugin` | src/plugins/supervisor/mod.rs:254-268 | One step of the protocol: the running instance's next exit restarts it even where the policy would not |
| `SupervisorCode.PluginSupervisor.HandleExit` | src/plugins/supervisor/watchdog.rs:16-134 | One step of the protocol: an exit of the registered instance starts a backoff if and only if a manual restart waits for it, or a restart is left and the policy is Always, or OnFailure and the exit a failure; otherwise the entry goes; any other exit changes no entry |
| `SupervisorCode.PluginSupervisor.FinishBackoff` | src/plugins/supervisor/watchdog.rs:104-121 | One step of the protocol: no other plugin changes, and with at most one stop in the window the dead instance is replaced by a newer one or nothing changes |
| `SupervisorCode.PluginSupervisor.MonitorLoop` | src/plugins/supervisor/watchdog.rs:14-136 | Undisturbed, the loop takes every reported exit by steps of the protocol and brings back no plugin without an entry |
| `Tickets.AcceptedOnce` | src/auth/ticket_store.rs:119-143 | With fresh hashes no ticket is accepted twice over any run, whatever the clock reads |
| `Tickets.AnsweredExactly` | src/auth/ticket_store.rs:119-143 | Over any run with fresh hashes, any clock, pruning or not: accepted if and only if the length is right, the ticket is issued and not dropped, unused and before its saturated expiry; each rejection exactly in its place; dropped exactly an hour after expiry and use |
| `Tickets.AcceptedIff` | src/auth/ticket_store.rs:119-143 | Accepted if and only if of the right length, issued and in time, and not accepted before: always without pruning, and with it while the clock does not run backwards |
| `Tickets.PruningAcceptsNoMore` | src/auth/ticket_store.rs:103-107 | Under any clock the pruning store answers like one that never prunes, or that it does not know the ticket |
| `Tickets.PruningIsInvisible` | src/auth/ticket_store.rs:46-51 | While the clock does not run backwards both accept exactly the same consumes |
| `Tickets.CoversStep` | src/auth/ticket_store.rs:88-157 | Every operation keeps what was dropped dead and what is left equal |
| `Tickets.TicketStore.Prune` | src/auth/ticket_store.rs:146-157 | Exactly the rows past their retention are dropped, in order, and counted |
| `Tickets.TicketStore.IssueAt` | src/auth/ticket_store.rs:88-110 | Issue prunes, then appends an unused row with a saturated expiry |
| `Tickets.TicketStore.SweepExpired` | src/auth/ticket_store.rs:146-158 | The sweep prunes and returns how many rows went |
| `Tickets.TicketStore.IndexOf` | src/auth/ticket_store.rs:127-131 | The search finds the first row with the hash if and only if there is one |
| `Tickets.TicketStore.ConsumeAt` | src/auth/ticket_store.rs:119-143 | From the rows alone: the first row with the hash is accepted if unused and not expired, and marked used in place; each rejection otherwise, with no row changed |
| `Calendar.CivilIsCounted` | src/cli/devices.rs:46-60 | For every day the arithmetic gives the date counted day by day from 1970-01-01, always valid |
| `Calendar.FormatTsIsCivil` | src/cli/devices.rs:46-67 | For every epoch second: that date, and hour, minute and second in range that make up the rest |
| `Calendar.CopiesAgree` | src/cli/device.rs:498-519 | The two copies agree on every input |
| `Calendar.YearUnique` | src/cli/devices.rs:53-54 | The quotient formula finds the year whose days hold the day of the era |
| `Calendar.FromMarchNext` | src/cli/devices.rs:55-59 | Month and day formulas move from day to day like the calendar |

## Left out

- Frame parsing, compression, checksums, MACs and key derivation: frames are records.
- HTTP routes, WebSocket upgrade, TLS, device store, configuration files, logging, metrics: input, output and plumbing.
- Process sandboxing and signals: only exit events and epochs are modelled.
- Rate limiters: an arbitrary yes or no.
- The pending entry of the direct device-capability arm, keyed by the requester's own id: outside the minted-id protocol.
- The event bus, device records, pong times, protocol versions and permission tables: they would add easy members only.
- Formatting of numbers and strings, CLI tables: user interface.
- TopoSort.Sort: for repeated ids the order of dependencies is not promised, because the code does not keep it; the exact inputs on which the loop ends are not characterised beyond distinct ids or no cycle.
- PendingAnswers.ConcurrencyCap: entries made by the relay are outside the cap, as in the code.
- Reconnect.KeepsActionIff: two plugins that declare one action have a row each; what the lookup then answers is in ActionIndex.
- PendingActions.Step: the response, chunk and close arms read the sender's identity and act in one step; a removal's two connection maps go in one step, and so do all entries it fails.
- ActionIndex.PluginRegistry.UnregisterIf: runs undisturbed; what may come between its parts is in Reconnect and PendingActions.
- LazyWake.Step: an answer passed on touches the plugin, any other way out of the pending table does not; the waker's wake, start-report and stop-report handlers are one step per branch, and starts and stops of processes are tasks that report.
- Supervisor.PolicyBudget: says nothing of a plugin without an entry (PolicyBudgetRun does, with at most one stop per window), and counts restarts that took place; an attempt whose spawn fails is not one.
- File and channel failures of the ticket store and of the router channel: operations succeed.
- The backoff delay and its jitter: only that time passes between the decision and the restart matters.
