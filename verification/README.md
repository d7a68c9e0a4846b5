# Agent command dispatch: a verified model

The control plane hands commands to workspace agents through a durable queue, and the
agents run them in long-lived child processes. This project models that protocol on both
sides and proves what it guarantees over all runs and interleavings:

| file | models |
|---|---|
| `CommandRows`, `CommandQueue`, `ClaimContract`, `QueueEffects`, `QueueRuns` | the command table, its service calls, the claim loop, who is told what, completion tokens over whole runs |
| `AgentRegistry`, `RegistryEffects`, `RegistryRuns`, `ControlPlane` | agent rows, bearers, heartbeats, the liveness sweep, drain and cancel |
| `Supervisor`, `DrainStory`, `Convergence`, `Divergence` | the agent's own lifecycle, when it agrees with the backend's, and runs after which it does not |
| `RunnerPool`, `DispatchPaths`, `DispatchRuns`, `RunnerConservation` | the runner pool, one dispatch from entry to return, and any number of concurrent dispatches |
| `DedupCache`, `Routing` | the replay cache, and concurrent routings through it |
| `Subscribers`, `SubscriberRuns`, `SubscriberDelivery` | the cross-pod subscriber registry, socket openings, lossy control messages, reconciler and sweeper |
| `Pipe`, `PipeRuns` | the command pipe, the child of a command and the goroutines that read from it |
| `Activity`, `Backoff`, `StsBackoff`, `SafeJoin` | activity batching, retry schedule and its configuration, path guard |

State that the source changes in place is a class whose methods are proved equal to
transition functions on values; the lemmas about runs are about those functions. A service
call is one transaction, so it is one step; critical sections of the pool, halves of an
inbound activity message, single lines and frames of the pipe, and every await of a socket
opening or a reconcile pass are steps of their own. Tokens are fresh
numbers and a hash is injective; clocks, random draws, hydrators, spawns and sends are
parameters, so every theorem holds for whatever they do.

## What the proofs show about the code

Where the code and its own comments disagree, the model follows the code.

- The attempt cap marks a row done without any engine event (service.py:942-951), although
  models.py:140 speaks of a terminal-failure outcome.
- `PushBranch` is dispatched (core/workspace/dispatch.py:267) but missing from the adapter
  `claim_next` decodes with (service.py:107-120): once it is an agent's first choice the
  same claim raises every time.
- `record_agent_event` never looks at the row's status, so a repeated terminal event with
  the valid token runs all its effects again.
- A lease expiry clears the agent, so of the requeued rows only ProvisionWorkspace rows can
  be claimed without a new pin; a hydration revert does the opposite and leaves an
  unassigned row stamped with the agent that failed.
- The event replayed for a redelivered command bears the token of the first claim, which
  the redelivering claim has replaced: the replay is always refused as stale.
- The two lifecycles can settle on different values in two ways, an agent restart after a
  drain and a drain closed by the sweep, and the system reaches both from every start;
  `SidesAgreeIff` is the exact condition.
- The sweep never closes the drain of a row that was already offline.
- An uninterrupted reconcile pass only ever publishes subscribes, so a run whose
  unsubscribe was lost stays streaming. A pass that a viewer's return interrupts between
  its two reads (subscribers.py:484-513) retracts a watched run, and an opening that the
  last viewer's departure interrupts before its replay (subscribers.py:180-218) streams a
  run nobody watches; neither needs a lost message.
- A redelivery that arrives while the command is still executing is executed again: the
  cache answers only for stored events.
- `sts_backoff.go:64` multiplies in int64. From 7686143365 seconds on a delay can leave the
  band its comment promises, and 9223372037 wraps to a negative step that never waits.
- Killing the child's process group closes its pipes (subprocess.go:222-225) only if no
  descendant has left the group: otherwise the command is not answered as long as it holds
  them. A line of 8 MiB or more ends the progress of its command without a word.
- Dropping a forgotten workspace leaves its runner open.
- `safeJoin` refuses names such as `..x`, although its comment speaks of `..` segments.

## Model

| member | source | states |
|---|---|---|
| `CommandRows.SelectIsPriorityMinimum` | apps/backend/app/core/agent_gateway/service.py:568-680 | The staged SELECTs return exactly the first row of a priority queue: None if and only if no row is eligible, otherwise the eligible row that is most urgent (agent-scoped, then unassigned provision, then pinned to an idle workspace) and oldest among those |
| `CommandRows.SameBucketIsFifo` | apps/backend/app/core/agent_gateway/service.py:608-680 | Of two rows that are eligible in the same bucket the later id is never selected |
| `CommandRows.UnconfiguredGetsOnlyConfig` | apps/backend/app/core/agent_gateway/service.py:586-605 | An unconfigured agent is only ever handed one of its own ConfigUpdate rows |
| `CommandQueue.CommandService.EnqueueCommandPayload` | apps/backend/app/core/agent_gateway/service.py:140-226 | The insert adds one pending row and changes no other; a taken id changes nothing |
| `CommandQueue.CommandService.EnqueueAgentScoped` | apps/backend/app/core/agent_gateway/service.py:465-495 | An agent-scoped command is inserted with its agent and a placeholder hash |
| `CommandQueue.CommandService.PinCommandToAgent` | apps/backend/app/core/agent_gateway/service.py:290-310 | Sets the agent of one row and nothing else |
| `CommandQueue.CommandService.SelectEligibleRowNowait` | apps/backend/app/core/agent_gateway/service.py:568-680 | Reads the table only and returns what the specification of the staged selection says |
| `CommandQueue.CommandService.StampClaim` | apps/backend/app/core/agent_gateway/service.py:775-782 | Agent, status, lease time and the hash of a freshly minted token on the selected row |
| `CommandQueue.CommandService.RevertClaim` | apps/backend/app/core/agent_gateway/service.py:812-850 | The hydration revert undoes status and lease time and nothing else |
| `CommandQueue.CommandService.RetireUnhydratedRow` | apps/backend/app/core/agent_gateway/service.py:819-831 | The row is done and the engine gets one failure event exactly when the row has a run |
| `CommandQueue.CommandService.ClaimNext` | apps/backend/app/core/agent_gateway/service.py:764-868 | The hydration loop in place: ends in the state and result of the specification, a raise restores the state before the call |
| `CommandQueue.CommandService.AcknowledgeCommandReceived` | apps/backend/app/core/agent_gateway/service.py:871-891 | claimed becomes delivered, every other status stays |
| `CommandQueue.CommandService.RetireCommand` | apps/backend/app/core/agent_gateway/service.py:894-905 | done whatever the status was |
| `CommandQueue.CommandService.RecordAgentEvent` | apps/backend/app/core/agent_gateway/service.py:1071-1287 | Accepted exactly when the presented token hashes to the stored hash (or none is stored); otherwise nothing changes; the effects come in the order of the code |
| `CommandQueue.CommandService.RequeueStaleClaimed` | apps/backend/app/core/agent_gateway/service.py:908-966 | Every unlocked row whose lease is older than 30 s is requeued with its agent cleared or, at the attempt cap, done; no other row changes; the count is the number requeued |
| `ClaimContract.ClaimMeetsContract` | apps/backend/app/core/agent_gateway/service.py:764-868 | For every table, caller, clock and hydrator: at most 5 rows are retired, each run-bearing and without credentials, and for each that has a run the engine gets exactly one "failure" event and nothing else; a returned command leaves exactly one newly claimed row with the hash of the returned token, and it goes before every other row the caller could have had; without a command no row is newly claimed and at most one other row changed, given back because it bears no run or five rows are gone; a raise changes nothing and comes from a crash or a PushBranch row |
| `ClaimContract.LoopVisitsPending` | apps/backend/app/core/agent_gateway/service.py:764-868 | The rows the loop selects are pending, distinct, and no more than the cap and one |
| `ClaimContract.LoopIsFramed` | apps/backend/app/core/agent_gateway/service.py:764-868 | Rows the loop never selects are unchanged; retired rows are run-bearing rows whose hydration failed |
| `ClaimContract.LoopSettlesLast` | apps/backend/app/core/agent_gateway/service.py:774-868 | The result and the final state of the last row the loop stopped at agree |
| `ClaimContract.LoopMints` | apps/backend/app/core/agent_gateway/service.py:775-782 | Each selection mints one new token, and only selected rows change their hash |
| `ClaimContract.LoopLogsFailures` | apps/backend/app/core/agent_gateway/service.py:819-831 | The log grows by the failure events of the retired rows, in the order they were retired |
| `ClaimContract.PushBranchBlocksTheHead` | apps/backend/app/core/agent_gateway/service.py:107-120 | A claim that selects a row it could hydrate raises and changes nothing exactly when the kind is missing from the adapter (PushBranch) |
| `ClaimContract.RevertKeepsRowEligibleIff` | apps/backend/app/core/agent_gateway/service.py:844-850 | After a hydration revert the row is still eligible for the caller if and only if it was already the caller's or its workspace is among the idle ones named |
| `ClaimContract.RevertedProvisionIsStranded` | apps/backend/app/core/agent_gateway/service.py:844-850 | A reverted ProvisionWorkspace row is eligible for no other agent and has left the new-workspace bucket |
| `QueueRuns.EveryStepIsOk` | apps/backend/app/core/agent_gateway/service.py:140-966 | Every service call keeps the row invariant (pending rows have no lease time; claimed and delivered rows have agent, time and hash; attempts stay below the cap unless done), moves each row only along the status machine and rehashes a row only by a claim with a new token |
| `QueueRuns.ReachableRowsAreOk` | apps/backend/app/core/agent_gateway/service.py:140-966 | In every reachable state a pending row has no lease time, a claimed or delivered row has an agent, a lease time and a hash, and attempts stay below the cap unless done |
| `QueueRuns.DoneIsAbsorbing` | apps/backend/app/core/agent_gateway/service.py:871-966 | Over every run done is never left and delivered is left only for done |
| `QueueRuns.RequeuesAreAttempts` | apps/backend/app/core/agent_gateway/service.py:927-966 | Over every run each return to pending by lease expiry costs one attempt, so a row is returned at most four times |
| `QueueRuns.RestampsIffRehashed` | apps/backend/app/core/agent_gateway/service.py:775-782 | A row's hash changes in a step exactly when a committed claim selected it, and the new hash is of a token not minted before |
| `QueueRuns.ClaimReturnsTheHash` | apps/backend/app/core/agent_gateway/service.py:775-790 | The token a claim returns is the one its row now carries the hash of |
| `QueueRuns.ClaimMintsItsToken` | apps/backend/app/core/agent_gateway/service.py:775-782 | The token a claim returns was not in circulation before |
| `QueueRuns.SupersededForever` | apps/backend/app/core/agent_gateway/service.py:1118-1146 | A token that is not its row's current one never becomes valid again in any run |
| `QueueRuns.TokenIsGoodUntilReclaim` | apps/backend/app/core/agent_gateway/service.py:1118-1146 | An event is authorised at the end of a run if and only if no claim in the run selected its command |
| `QueueRuns.ClaimTokenAuthority` | apps/backend/app/core/agent_gateway/service.py:764-868 | From a claim on, an event with its token acts exactly until the next claim that selects the command |
| `QueueRuns.ReclaimSilencesEarlierClaim` | apps/backend/app/core/agent_gateway/service.py:1118-1146 | After a re-claim every event of the earlier claim is refused with no state change, at any later point of any run |
| `QueueEffects.TerminalEventTells` | apps/backend/app/core/agent_gateway/service.py:1191-1287 | An accepted terminal event makes its row done and changes no other; if the row has a run the engine gets exactly one event, for that run and command, with the event's label, or "failure" for a failure and "success" otherwise; the agent is configured, the claim released, the run finalized and the workspace materialised exactly when owed, once each and in this order |
| `QueueEffects.OtherEventTells` | apps/backend/app/core/agent_gateway/service.py:1140-1185 | A received event moves a claimed row to delivered and tells nobody; a progress event changes no row and is forwarded once if the row has a run |
| `QueueEffects.RefusedIff` | apps/backend/app/core/agent_gateway/service.py:1118-1136 | An event is accepted if and only if its row exists and has no hash or the hash of the presented token, a missing one being empty; a refused event changes nothing and tells nobody |
| `QueueEffects.ReapIsExact` | apps/backend/app/core/agent_gateway/service.py:908-966 | Exactly the unlocked claimed rows with a lease older than 30 seconds change: below four attempts to pending without agent and lease and with one attempt more, otherwise to done with attempt five |
| `QueueEffects.EnqueueIsExact` | apps/backend/app/core/agent_gateway/service.py:140-226 | A new row is pending, unclaimed and on its first attempt, an agent-scoped one with its agent and a hash nobody has the token of; a taken id changes nothing |
| `QueueEffects.PinIsExact` | apps/backend/app/core/agent_gateway/service.py:290-310 | A pin sets the agent of one row, after which no other agent can be given it |
| `QueueEffects.RepeatedTerminalEventIsProcessedAgain` | apps/backend/app/core/agent_gateway/service.py:1116-1274 | A repeated terminal event with a valid token is accepted again and all that was owed is told once more, the engine event included |
| `QueueEffects.RequeuedRowIsClaimableIff` | apps/backend/app/core/agent_gateway/service.py:942-960 | A row the reaper requeues can be claimed by someone if and only if it is a ProvisionWorkspace row |
| `AgentRegistry.AgentService.ExchangeIdentity` | apps/backend/app/core/agent_gateway/service.py:1364-1441 | One row per organisation and instance: created unconfigured, or brought back online, with shutdown leading to unconfigured; one new bearer for it |
| `AgentRegistry.AgentService.RecordHeartbeat` | apps/backend/app/core/agent_gateway/web.py:443-452 | Only a bearer that verifies is accepted, and then exactly its agent's row is written |
| `AgentRegistry.AgentService.RevokeAllForAgent` | apps/backend/app/core/agent_gateway/bearers.py:211-228 | Revokes every live bearer of the agent and no other, and returns how many |
| `AgentRegistry.AgentService.CompleteShutdown` | apps/backend/app/core/agent_gateway/service.py:1550-1618 | The compare-and-set from draining: the winner settles the row and revokes its bearers, a loser changes nothing |
| `AgentRegistry.AgentService.DeregisterIdentity` | apps/backend/app/core/agent_gateway/web.py:378-440 | Draining completes the shutdown, shutdown is left alone, any other lifecycle goes offline and loses the presented bearer |
| `AgentRegistry.AgentService.ComputeAgentLivenessTransitions` | apps/backend/app/core/agent_gateway/service.py:2010-2099 | The sweep loop, in any visiting order: ends in the specified state and lists exactly the rows that turned offline |
| `RegistryRuns.StepKeepsSettled` | apps/backend/app/core/agent_gateway/service.py:972-2099 | Every exchange, heartbeat, deregistration, configuration, drain, cancel, sweep and revoke keeps "shutdown implies offline with no live bearer" and every row's organisation and instance, and a row leaves shutdown only by the exchange of its own organisation and instance |
| `RegistryRuns.ShutdownIsSettled` | apps/backend/app/core/agent_gateway/service.py:1550-1618 | In every reachable state a shut-down agent is offline and every bearer of it is revoked |
| `RegistryRuns.ShutdownStaysWithoutExchange` | apps/backend/app/core/agent_gateway/service.py:1407-1425 | A run without an identity exchange of that row's own organisation and instance never leaves shutdown, whoever else exchanges |
| `RegistryRuns.BeatKeepsSettledIff` | apps/backend/app/core/agent_gateway/service.py:972-1065 | A heartbeat written without the bearer check in the same step keeps the property if and only if its agent is not shut down |
| `RegistryRuns.LateHeartbeatUnsettles` | apps/backend/app/core/agent_gateway/web.py:443-452 | The interleaving in which a verified heartbeat is written after a deregistration |
| `RegistryRuns.SweepIsExact` | apps/backend/app/core/agent_gateway/service.py:2010-2099 | After a sweep every unlocked live row is offline if last heard of more than 300 seconds ago, lagging if more than 60, reachable otherwise; exactly the rows that turned offline are listed; those of them that were draining are shut down and stamped and exactly their bearers revoked; nothing else changes |
| `RegistryRuns.SweepIsIdempotent` | apps/backend/app/core/agent_gateway/service.py:2010-2099 | A second sweep at the same time changes nothing and returns nothing |
| `RegistryRuns.SilentDrainIsSettledIff` | apps/backend/app/core/agent_gateway/service.py:2060-2082 | The sweep shuts a silent draining agent down if and only if it was not already shown as offline |
| `RegistryRuns.OfflineDrainIsNeverSettled` | apps/backend/app/core/agent_gateway/service.py:2068-2082 | An agent already offline when its drain was requested stays draining through any number of sweeps |
| `RegistryEffects.ExchangeIsExact` | apps/backend/app/core/agent_gateway/service.py:1364-1441 | An exchange finds the row of its organisation and instance or makes the next one; the row is reachable, and unconfigured if it is new or was shut down; one bearer nobody had before is issued for an hour; no other row or bearer changes |
| `RegistryEffects.BearerIsGoodIff` | apps/backend/app/core/agent_gateway/bearers.py:99-208 | After any run the bearer of an exchange verifies if and only if less than 3600 seconds have passed since it was issued and it has not been revoked |
| `RegistryEffects.HeartbeatIsExact` | apps/backend/app/core/agent_gateway/web.py:443-452 | A heartbeat whose token lets its agent in writes time, state and count of that row; any other changes nothing |
| `RegistryEffects.DeregisterIsExact` | apps/backend/app/core/agent_gateway/web.py:378-440 | A deregistration that its token lets in takes the row offline, and the token never verifies again: a draining agent is shut down with all its bearers revoked, any other keeps its lifecycle and loses that bearer alone; an agent already shut down changes nothing |
| `RegistryEffects.ConfiguringIsExact` | apps/backend/app/core/agent_gateway/service.py:1469-1506 | A configuration activates an unconfigured agent and changes nothing otherwise |
| `RegistryEffects.DrainingIsExact` | apps/backend/app/core/agent_gateway/service.py:1701-1771 | A drain request drains an unconfigured or active agent of its organisation and changes nothing otherwise; the outcome says which |
| `RegistryEffects.CancellingIsExact` | apps/backend/app/core/agent_gateway/service.py:1800-1872 | A cancel activates a draining agent of its organisation and changes nothing otherwise; the outcome says which |
| `RegistryEffects.CompletionIsExact` | apps/backend/app/core/agent_gateway/service.py:1550-1618 | A drain completes only from draining: shut down, offline, stamped, and exactly its bearers revoked |
| `ControlPlane.ControlPlaneService.NotifyAgent` | apps/backend/app/core/agent_gateway/service.py:498-520 | One agent-scoped command with the next id |
| `ControlPlane.ControlPlaneService.Identity` | apps/backend/app/core/agent_gateway/web.py:335-354 | Row upsert, bearer, then one ConfigUpdate for the agent |
| `ControlPlane.ControlPlaneService.ShutdownAgents` | apps/backend/app/core/agent_gateway/service.py:1675-1773 | The bulk drain loop: one outcome per id in order, with the state of draining them one by one |
| `ControlPlane.ControlPlaneService.CancelShutdownAgents` | apps/backend/app/core/agent_gateway/service.py:1776-1872 | The bulk cancel loop, likewise |
| `ControlPlane.ControlPlaneService.CommandEvent` | apps/backend/app/core/agent_gateway/service.py:1187-1208 | A successful ConfigUpdate event flips unconfigured to active exactly when its token is accepted |
| `ControlPlane.BulkDrainIsExact` | apps/backend/app/core/agent_gateway/service.py:1701-1771 | A bulk drain sets exactly the agents that were its organisation's and unconfigured or active to draining, and inserts one pending Shutdown row for each of them, no two for the same agent, and no other row |
| `ControlPlane.BulkCancelIsExact` | apps/backend/app/core/agent_gateway/service.py:1776-1872 | A bulk cancel sets exactly the organisation's draining agents of the list to active and inserts one pending CancelShutdown row for each, and no other |
| `ControlPlane.DrainOutcomesTell` | apps/backend/app/core/agent_gateway/service.py:1675-1773 | One outcome per id in order: not found outside the organisation, started at the first mention of an agent that may be drained, and otherwise what it is already |
| `ControlPlane.CancelOutcomesTell` | apps/backend/app/core/agent_gateway/service.py:1776-1872 | One outcome per id in order, likewise |
| `ControlPlane.IdentityGivesConfig` | apps/backend/app/core/agent_gateway/web.py:335-354 | An identity exchange gives the agent exactly one new command, a pending ConfigUpdate |
| `ControlPlane.ReportConfiguresIff` | apps/backend/app/core/agent_gateway/service.py:1187-1208 | An event changes the registry if and only if it is an accepted success of a ConfigUpdate whose agent is unconfigured, which then is active |
| `Supervisor.SupervisorState.ApplyConfig` | apps/agent/internal/supervisor/supervisor.go:1267-1298 | The configuration is stored and an unset or unconfigured lifecycle becomes active |
| `Supervisor.SupervisorState.RequestShutdown` | apps/agent/internal/supervisor/supervisor.go:1303-1306 | The local lifecycle becomes draining, the configuration stays |
| `Supervisor.SupervisorState.CancelDrain` | apps/agent/internal/supervisor/supervisor.go:1311-1314 | The local lifecycle becomes active |
| `Supervisor.SupervisorState.BuildClaimRequest` | apps/agent/internal/supervisor/supervisor.go:1196-1260 | Capacity, idle workspaces and poll time as the code computes them from the pool |
| `Supervisor.SupervisorState.MaybeTriggerShutdownExit` | apps/agent/internal/supervisor/supervisor.go:1330-1343 | The run is cancelled only while draining with no active record |
| `Supervisor.GrantRespectsAgentState` | apps/agent/internal/supervisor/supervisor.go:1196-1260 | Whatever the queue grants for a request the supervisor built: no new workspace unless active and below the cap, only a ConfigUpdate while unconfigured, workspace commands only for workspaces the pool reported idle |
| `Supervisor.RequestIsExact` | apps/agent/internal/supervisor/supervisor.go:1196-1260 | An active agent asks for exactly the workspaces it has room for and any other for none; idle workspaces are offered once configured; it polls for one second exactly while a dispatch is pending or all active workspaces are busy, and otherwise for thirty |
| `Supervisor.ReadyAgentIsServed` | apps/agent/internal/supervisor/supervisor.go:1196-1260 | An active agent below its cap is given a command whenever an unassigned ProvisionWorkspace row is free, a configured agent whenever a row of one of its idle workspaces is |
| `Supervisor.AgentCommandsAreExact` | apps/agent/internal/supervisor/supervisor.go:1267-1314 | What ConfigUpdate, Shutdown and CancelShutdown make of configuration and lifecycle |
| `DrainStory.BeatKeepsInv` | apps/agent/internal/supervisor/supervisor.go:817-821 | Every step of the two-sided drain protocol keeps its invariant: one command in hand, signals leave in mint order, each side's lifecycle is what the last relevant command asks for |
| `DrainStory.AgreeIff` | apps/agent/internal/supervisor/supervisor.go:1267-1314 | With nothing outstanding the two lifecycles agree if and only if the row is not shut down and the last drain was either closed by the backend and forgotten by the agent, or neither |
| `Divergence.WorkerCatchesUp` | apps/agent/internal/supervisor/supervisor.go:713-866 | From every reachable state the agent's claim loop alone can bring every command it was told to done |
| `Divergence.ClosedDrainDiverges` | apps/backend/app/core/agent_gateway/service.py:2068-2082 | From every start there is a run of the whole system, without a restart, in which the sweep closes the drain of an agent that was only cut off: with everything done it is active for the backend and draining for itself |
| `Divergence.RestartedDrainDiverges` | apps/backend/app/core/agent_gateway/web.py:335-354 | From every start there is a run of the whole system in which the agent restarts after carrying out a drain: with everything done it is draining for the backend and active for itself |
| `Convergence.MoveRefines` | apps/agent/internal/supervisor/supervisor.go:713-866 | Every move of the whole system (exchange, restart, drain, cancel, configuration push, heartbeats and sweeps, lease reaping of other rows, other agents' traffic, claim, acknowledge, execute, post) is a step of that protocol |
| `Convergence.MovesAreCalls` | apps/agent/internal/supervisor/supervisor.go:713-866 | Every move of the whole system is one call on the control plane, by this agent or by others, and only a restart and the worker's own moves touch the agent's side |
| `Convergence.FirstExchangeStarts` | apps/backend/app/core/agent_gateway/web.py:335-354 | The first exchange of a new identity produces a start state of the run theorems |
| `Convergence.SidesAgreeIff` | apps/backend/app/core/agent_gateway/service.py:1469-1872 | Over every run, in every state where all agent-scoped rows of the agent are done, the agent's lifecycle equals the backend's if and only if the row is not shut down and the drain was closed by the backend exactly when the agent forgot it |
| `Convergence.SidesConverge` | apps/agent/internal/supervisor/supervisor.go:1267-1314 | As long as the agent does not restart and no move takes its row from draining to shutdown, with any sweeps and deregistrations besides, the two lifecycles are equal in every state where all agent-scoped rows are done |
| `Convergence.NeverActiveWithoutConfig` | apps/agent/internal/supervisor/supervisor.go:1267-1298 | In every reachable state the agent is unconfigured or has a configuration |
| `RunnerPools.RunnerPool.ReserveActiveSlot` | apps/agent/internal/supervisor/pool.go:190-209 | Existence check, cap check by a counting loop and placeholder insert as one section |
| `RunnerPools.RunnerPool.AssignRunner` | apps/agent/internal/supervisor/pool.go:213-219 | The runner goes into whatever record the id names now |
| `RunnerPools.RunnerPool.LookupSendable` | apps/agent/internal/supervisor/pool.go:225-233 | A record is returned exactly when it is active and has a runner, and it is the registered one |
| `RunnerPools.RunnerPool.SeedOrphanRecord` | apps/agent/internal/supervisor/pool.go:237-244 | A fresh orphaned record replaces what the id named |
| `RunnerPools.RunnerPool.MarkRecordDefunct` | apps/agent/internal/supervisor/pool.go:250-258 | The registered record becomes defunct, a missing one is ignored |
| `RunnerPools.RunnerPool.RemoveRecord` | apps/agent/internal/supervisor/pool.go:262-266 | Unregisters the id; the record and its runner are left as they are |
| `RunnerPools.RunnerPool.SetRecordPath` | apps/agent/internal/supervisor/pool.go:270-278 | Only the path of the registered record changes |
| `RunnerPools.RunnerPool.SetCommandID` | apps/agent/internal/supervisor/pool.go:282-302 | Only the busy mark of the registered record changes |
| `RunnerPools.RunnerPool.IdleIDs` | apps/agent/internal/supervisor/pool.go:367-377 | Lists exactly the active records with no command in flight, each once |
| `RunnerPools.RunnerPool.CloseAll` | apps/agent/internal/supervisor/pool.go:529-548 | Empties the registry and closes exactly the runners it held |
| `RunnerPools.ReserveAddsOne` | apps/agent/internal/supervisor/pool.go:190-209 | A reservation adds its own id, never past the cap it was given, and is refused exactly when the id is active or the positive cap is reached |
| `RunnerPools.WritesAddNone` | apps/agent/internal/supervisor/pool.go:213-302 | Assigning, setting the path and marking busy leave the set of active ids as it is |
| `RunnerPools.DropsAddNone` | apps/agent/internal/supervisor/pool.go:237-258 | A defunct mark or an orphan takes exactly its id out of the active ones |
| `RunnerPools.RemoveAddsNone` | apps/agent/internal/supervisor/pool.go:262-266 | Removal takes exactly its id out of the active ones |
| `DispatchRuns.StepKeepsSound` | apps/agent/internal/supervisor/pool.go:423-526 | Every step of every caller keeps the pointers, slot locks and runner ownership consistent |
| `DispatchRuns.NoTwoSendsOnOneRunner` | apps/agent/internal/supervisor/pool.go:473-486 | In every interleaving of any number of dispatches, forgettings and orphans no runner is sent two commands at once and no caller finds a nil runner where it sends or closes |
| `DispatchRuns.ActiveMoves` | apps/agent/internal/supervisor/pool.go:190-266 | A step raises the number of active records by at most one, only by a reservation, and only from below that caller's cap |
| `DispatchRuns.CapHolds` | apps/agent/internal/supervisor/pool.go:190-209 | With a fixed positive cap the number of active records never exceeds it in any interleaving |
| `DispatchPaths.CallEnters` | apps/agent/internal/supervisor/pool.go:441-468 | A provision begins with the reservation, every other command with the lookup |
| `DispatchPaths.LiveWorkspaceIsLookedUp` | apps/agent/internal/supervisor/pool.go:441-471 | A provision of a workspace whose record is active spawns nothing and goes on to the lookup |
| `DispatchPaths.SendableWorkspaceIsSentTo` | apps/agent/internal/supervisor/pool.go:466-486 | With an active record that has a runner and a free slot, every command takes the slot, marks the record busy with itself and sends to that runner |
| `DispatchPaths.NewWorkspaceIsSpawned` | apps/agent/internal/supervisor/pool.go:441-464 | Below the cap a provision of any other workspace ends its first half with a new active record holding the spawned runner |
| `DispatchPaths.FailedSpawnReturns` | apps/agent/internal/supervisor/pool.go:446-453 | When the spawn fails the call returns with the workspace out of the registry |
| `DispatchPaths.ProvisionAtCapReturns` | apps/agent/internal/supervisor/pool.go:456-458 | At the cap it returns and leaves nothing behind |
| `DispatchPaths.UnknownWorkspaceReturns` | apps/agent/internal/supervisor/pool.go:466-471 | Without an active record that has a runner every command returns and leaves nothing behind |
| `DispatchPaths.FailedSendLeavesDefunct` | apps/agent/internal/supervisor/pool.go:486-499 | After a failed send the record is registered, defunct and idle, its runner closed and its slot free |
| `DispatchPaths.AnsweredCleanupRemoves` | apps/agent/internal/supervisor/pool.go:501-511 | After an answered cleanup the workspace is out of the registry, its runner closed and its slot free |
| `DispatchPaths.AnsweredCommandLeavesIdle` | apps/agent/internal/supervisor/pool.go:513-525 | After any other answer the record is active and idle and its runner open; a provision's directory becomes the record's path |
| `RunnerConservation.OneReserverPerId` | apps/agent/internal/supervisor/pool.go:441-464 | As long as nothing takes its placeholder away, the caller between reserve and assign is the only one for its id and its placeholder is still its own |
| `RunnerConservation.RunnersAreConserved` | apps/agent/internal/supervisor/pool.go:443-511 | With one command per workspace at a time and no forgetting of an active record, in every interleaving a spawned runner is in exactly one place: closed, held by one active record, carried by the caller that spawned it, or about to be closed by the one caller that marked or removed its record |
| `RunnerConservation.FailedSendEndsDefunct` | apps/agent/internal/supervisor/pool.go:486-499 | A failed send ends with its record registered and defunct and its runner closed |
| `RunnerConservation.CleanupEndsRemoved` | apps/agent/internal/supervisor/pool.go:501-511 | An answered cleanup frees the workspace id and closes its runner |
| `RunnerConservation.DefunctIsClosed` | apps/agent/internal/supervisor/pool.go:487-499 | In every state reachable by a disciplined run a registered defunct record's runner is closed or about to be closed by a caller |
| `RunnerConservation.CloseAllLeavesNoneOpen` | apps/agent/internal/supervisor/pool.go:529-548 | With no dispatch in flight, closing what the registry holds leaves no runner open |
| `RunnerConservation.ForgetKeepsAllClosableIff` | apps/agent/internal/supervisor/supervisor.go:944-957 | After dropping a forgotten workspace everything can still be closed if and only if its record held no runner to send to |
| `RunnerConservation.IdleIsSendableUnlessReserved` | apps/agent/internal/supervisor/pool.go:367-377 | An idle id is not sendable exactly when some caller is between reserving and assigning it |
| `RunnerConservation.IdleIffNothingInFlight` | apps/agent/internal/supervisor/pool.go:477-479 | Over every disciplined run an active workspace is reported idle exactly when no command is between marking busy and clearing |
| `DedupCaches.DedupCache.constructor` | apps/agent/internal/supervisor/dedup.go:38-47 | An empty cache; a capacity that is not positive means 1024 |
| `DedupCaches.DedupCache.StoreEvent` | apps/agent/internal/supervisor/dedup.go:51-74 | Update in place and move to front, or evict the last and push to the front |
| `DedupCaches.DedupCache.LookupEvent` | apps/agent/internal/supervisor/dedup.go:78-88 | A hit returns the event and promotes the entry, a miss changes nothing |
| `DedupCaches.LruRefinesRecency` | apps/agent/internal/supervisor/dedup.go:51-88 | After any history of stores and lookups the list is exactly the cap most recently touched distinct ids in order of recency, the index has exactly these ids, and each carries the event last stored for it |
| `DedupCaches.RetainedIff` | apps/agent/internal/supervisor/dedup.go:51-88 | An id is cached if and only if it was touched and fewer than cap other ids have been touched since; a lookup then returns the event last stored |
| `Routing.RouteCommand` | apps/agent/internal/supervisor/supervisor.go:990-1065 | One routing that nothing interrupts: the steps Arrive and, on a miss, Complete of the machine below, posting what it posts |
| `Routing.RoutingEnds` | apps/agent/internal/supervisor/supervisor.go:841-866 | A routing that missed ends with one event posted under its own command and token, a failure if it panicked, and stores it only if it did not |
| `Routing.ArrivalIsReplayedIff` | apps/agent/internal/supervisor/supervisor.go:990-1000 | In every interleaving of any number of routings an arrival is answered from the cache, with what was last stored for its id, if and only if its id was touched and fewer than cap other ids were touched since |
| `Routing.RedeliveryIsReplayed` | apps/agent/internal/supervisor/supervisor.go:990-1065 | Once one routing of a command has stored its event, a redelivery is not executed in any interleaving in which the calls in between name fewer than cap other ids; it posts the same event unless another routing of the command stored one since |
| `Routing.DuplicateInFlightRunsTwice` | apps/agent/internal/supervisor/supervisor.go:990-1065 | A redelivery that arrives while the command is still executing and not cached is executed as well, and both post an event of their own |
| `Routing.ReplayAfterReclaimIsRefused` | apps/agent/internal/supervisor/supervisor.go:993-1000 | The replayed event bears the token of an earlier claim, which the redelivering claim has superseded: the control plane refuses it and changes nothing, then and in every later run |
| `Subscribers.SubscriberRegistry.Track` | apps/backend/app/core/agent_gateway/subscribers.py:296-349 | Member, route and agent entry are written with one score, one subscribe is published, the pod holds the connection |
| `Subscribers.SubscriberRegistry.Untrack` | apps/backend/app/core/agent_gateway/subscribers.py:351-406 | An unknown connection is ignored; the last member takes route and agent entry along and publishes one unsubscribe |
| `Subscribers.Redis.DropMember` | apps/backend/app/core/agent_gateway/subscribers.py:378-406 | The Redis half of untracking |
| `Subscribers.SubscriberRegistry.Heartbeat` | apps/backend/app/core/agent_gateway/subscribers.py:408-436 | Re-stamps both scores and nothing else |
| `Subscribers.SubscriberRegistry.HandleControl` | apps/backend/app/core/agent_gateway/subscribers.py:252-258 | A control message adds or removes its run for its agent and leaves other agents alone |
| `Subscribers.SubscriberRegistry.ReconcileOnce` | apps/backend/app/core/agent_gateway/subscribers.py:471-547 | The two nested loops, with nothing else running between their reads, publish exactly the repairs of every run in the route set of every agent with a socket here, each once |
| `Subscribers.Redis.RunSweeper` | apps/backend/app/core/agent_gateway/subscribers.py:553-577 | Removes exactly the members with a score between 0 and now minus 60, in both families of sets |
| `SubscriberRuns.TrackIsExact` | apps/backend/app/core/agent_gateway/subscribers.py:296-349 | Tracking leaves member, route and agent entry with one score, and nothing else changes |
| `SubscriberRuns.UntrackIsExact` | apps/backend/app/core/agent_gateway/subscribers.py:378-406 | Untracking takes the member out; exactly when nobody is left and the run has a route, the route and the agent entry go too and one unsubscribe is announced to that agent |
| `SubscriberRuns.SubscribersAreConnections` | apps/backend/app/core/agent_gateway/subscribers.py:296-406 | Over every run of all pods a run's subscriber set is the union of the open connections, and it is non-empty exactly when the run has its route hash and agent entry |
| `SubscriberRuns.SweepIsExact` | apps/backend/app/core/agent_gateway/subscribers.py:553-577 | A sweep takes out of each set exactly the members whose own score lies between 0 and now minus 60, whatever the scores of the others, and leaves all other scores and the routes alone |
| `SubscriberRuns.SweepSparesTheLiveIff` | apps/backend/app/core/agent_gateway/subscribers.py:553-577 | A sweep spares an open connection if and only if it stamped its own score within the last 60 s, so all of them exactly when each has, and then it removes no agent's route entry either |
| `SubscriberDelivery.StepKeepsReads` | apps/backend/app/core/agent_gateway/subscribers.py:178-219 | What a pass or an opening has read of a run stays true until the run is tracked or untracked, over every await of both |
| `SubscriberDelivery.OneUnsubscribePerDrop` | apps/backend/app/core/agent_gateway/subscribers.py:378-547 | Over every run of tracks, openings and passes interleaved await by await, the unsubscribes published for a run are one per drop to zero viewers and one per pass that retracts it, and no pass retracts anything if no run is tracked or untracked between a pass's reading its card and publishing |
| `SubscriberDelivery.RetractsIffWatchedAgain` | apps/backend/app/core/agent_gateway/subscribers.py:511-540 | In every reachable state a pass that found no subscriber goes on to publish an unsubscribe if and only if the run is watched again when its route is read |
| `SubscriberDelivery.ReliablePodsAreInStep` | apps/backend/app/core/agent_gateway/subscribers.py:178-258 | When no message is lost and no publish or replay is stale, a pod that has finished opening a socket and handled its inbox believes exactly the watched runs to be streaming, and no pod ever comes to believe more |
| `SubscriberDelivery.UndisturbedPodsAreInStep` | apps/backend/app/core/agent_gateway/subscribers.py:178-258 | Without losses, and with no run tracked or untracked between the reading of its card and its publish or replay, such a pod believes exactly the watched runs to be streaming |
| `SubscriberDelivery.UndisturbedIsNotStale` | apps/backend/app/core/agent_gateway/subscribers.py:484-540 | A publish or replay of a run neither tracked nor untracked since its card was read is never stale |
| `SubscriberDelivery.PublishIsRightIff` | apps/backend/app/core/agent_gateway/subscribers.py:487-540 | In every reachable state a pass's publish leaves its run streamed exactly if watched, at every socket of the agent, if and only if it is not stale |
| `SubscriberDelivery.ReplayIsRightIff` | apps/backend/app/core/agent_gateway/subscribers.py:213-219 | In every state reached without losses a replay leaves nothing streamed that nobody watches if and only if it is not stale |
| `SubscriberDelivery.RacingReplayMisleads` | apps/backend/app/core/agent_gateway/subscribers.py:178-219 | From every startup: the last viewer leaves between the snapshot of an opening and its replay; nothing was lost, and the run is streamed with no viewer and nothing under way to end it |
| `SubscriberDelivery.RacingPassMisleads` | apps/backend/app/core/agent_gateway/subscribers.py:477-540 | From every startup: a viewer comes between the card and the route read of a pass, which retracts the run; nothing was lost, the run is watched and will not be streamed, and two unsubscribes were published for one drop |
| `SubscriberDelivery.PassesOnlySubscribe` | apps/backend/app/core/agent_gateway/subscribers.py:471-547 | A pass with nothing in between publishes a subscribe for exactly the routed runs not streamed, and nothing else |
| `SubscriberDelivery.OnePassRepairs` | apps/backend/app/core/agent_gateway/subscribers.py:471-510 | From every reachable state, whatever was lost and whatever is under way, one uninterrupted pass and the handling of the inbox leave streaming what would have been streamed plus the watched runs that were not; everything watched is then streamed if and only if no message under way ends a run both watched and streamed, and a run that nobody watches and would be streamed stays |
| `Pipe.ActWrites` | apps/agent/internal/workspace/subprocess.go:160-233 | Every act of the child, the readers, the waiter and the executor keeps "the streaming call returns only after the waiter, the waiter goes on only after both readers, and a reader stops only at the end of the output or at a line that does not fit"; it appends to what was written, and nothing once the command is answered |
| `Pipe.ExecuteCommand` | apps/agent/internal/workspace/workspace.go:94-144 | However the child, the readers, the waiter and the clock are scheduled: the child's lines up to the first that does not fit the scanner, then exactly one terminal frame, all with the command's id and token |
| `Pipe.Run` | apps/agent/internal/workspace/workspace.go:63-88 | The process reads commands until its input ends or its context is done and writes the frames of each, in order |
| `Pipe.ReadEvents` | apps/agent/internal/supervisor/exec_spawn.go:146-162 | The read loop stops at the first terminal frame, having forwarded exactly the progress before it; what follows stays in the pipe |
| `Pipe.ReadBack` | apps/agent/internal/supervisor/exec_spawn.go:146-162 | Reading what was written for a command gives back its progress and its own terminal event |
| `Pipe.AnsweredIsExact` | apps/agent/internal/workspace/emitter.go:83-105 | An answered command's output is one progress frame for each of its child's lines, without the final carriage return, up to the first line of 8 MiB, then one frame with its outcome, all with its own id and token |
| `PipeRuns.NothingFollowsTheTerminal` | apps/agent/internal/workspace/subprocess.go:160-233 | In every interleaving what has been written is one block per command, in order, of its child's lines and then at most one terminal frame; no goroutine writes anything for a command after its terminal frame, and no success is reported for a child that failed or was interrupted |
| `PipeRuns.MoveKeepsLockstep` | apps/agent/internal/supervisor/exec_spawn.go:132-176 | Every move of supervisor, process, child or reader keeps both pipes and the executions in lockstep |
| `PipeRuns.SendsAreAnsweredInOrder` | apps/agent/internal/supervisor/exec_spawn.go:132-176 | In every interleaving the i-th send returns the terminal event of the i-th command after forwarding exactly the lines its child printed up to the first that does not fit, timed out and killed children included, and between sends both pipes are empty |
| `PipeRuns.NobodyIsStuck` | apps/agent/internal/supervisor/exec_spawn.go:145-175 | While a send is under way on an intact pipe, a frame is there, or the process can go on by itself, or its child is running, or it stopped before taking the command |
| `PipeRuns.DoneIsAnsweredIff` | apps/agent/internal/workspace/subprocess.go:215-233 | Once the context is done, the process can bring the command to its answer by itself, whatever the child does, if and only if no descendant that left the child's process group holds its pipes |
| `Activity.SubscriptionSet.Add` | apps/agent/internal/activity/subscription.go:25-29 | Adds exactly the key |
| `Activity.SubscriptionSet.Remove` | apps/agent/internal/activity/subscription.go:31-35 | Removes exactly the key |
| `Activity.WorkspaceMapping.Set` | apps/agent/internal/activity/mapping.go:24-28 | Maps exactly the workspace |
| `Activity.WorkspaceMapping.Remove` | apps/agent/internal/activity/mapping.go:37-41 | Unmaps exactly the workspace |
| `Activity.Conductor.HandleInbound` | apps/agent/internal/activity/conductor.go:88-107 | Both halves of an inbound message in the order of the machine below; afterwards subscribed exactly after a subscribe, mapped to the run it named, unmapped after an unsubscribe |
| `Activity.Conductor.BeginHearing` | apps/agent/internal/activity/conductor.go:93-104 | The first half: a subscribe sets the mapping before anything is subscribed, an unsubscribe leaves the set before the mapping goes |
| `Activity.Conductor.Publish` | apps/agent/internal/activity/batcher.go:76-83 | Accepted exactly when subscribed; the key's events are then the old ones and the new one, and no other key changes |
| `Activity.Conductor.FlushOne` | apps/agent/internal/activity/conductor.go:119-133 | A batch is sent under the mapped run, or dropped without a mapping |
| `Activity.Conductor.Drain` | apps/agent/internal/activity/batcher.go:88-107 | The buffer ends empty and every key's events were flushed exactly once, in order |
| `Activity.EventsAreConserved` | apps/agent/internal/activity/batcher.go:76-115 | In every interleaving flushed, pending and buffered events of a key are together exactly the events published for it, in order; after Stop, with nothing published after the last swap, all of them were flushed |
| `Activity.OnlySubscribedIsAccepted` | apps/agent/internal/activity/batcher.go:76-83 | Whatever reaches the buffer was published for that key while the publisher saw it subscribed |
| `Activity.StopFlushesAll` | apps/agent/internal/activity/batcher.go:88-115 | From every reachable state between two ticks a stop ends with the loop stopped, nothing buffered, and every event ever accepted flushed |
| `Activity.MessageIsExact` | apps/agent/internal/activity/conductor.go:88-107 | A subscribe maps its workspace, if it names a run, and then subscribes it; an unsubscribe ends the subscription and then the mapping; no other workspace is touched |
| `Activity.SubscribedIsMapped` | apps/agent/internal/activity/conductor.go:93-105 | At every intermediate step a key subscribed with a run id is mapped, so its batch is sent |
| `Backoff.ScheduleInPlace.constructor` | apps/agent/internal/backoff/schedule.go:86-102 | Empty steps mean the default ramp; attempt and first failure are unset |
| `Backoff.ScheduleInPlace.SleepFor` | apps/agent/internal/backoff/schedule.go:116-151 | Stamp, deadline check, advance, wait and second check, in that order |
| `Backoff.ScheduleInPlace.Reset` | apps/agent/internal/backoff/schedule.go:164-169 | Attempt and first failure are cleared |
| `Backoff.DelayIsInBand` | apps/agent/internal/backoff/schedule.go:173-181 | Every delay of a step that leaves room for a fifth more in int64 lies between four and six fifths of it |
| `Backoff.SleepsFitTheDeadline` | apps/agent/internal/backoff/schedule.go:116-151 | After k sleeps that returned nil the step index is min(k, n-1), and the least time they can have taken is below the deadline |
| `Backoff.SleepsFitIff` | apps/agent/internal/backoff/schedule.go:116-181 | For every ramp and deadline, k sleeps in a row can return nil if and only if the least time they can take is below the deadline; a step that is negative or too large for its jitter counts nothing |
| `Backoff.RunBootstrap` | apps/agent/internal/supervisor/supervisor.go:332-361 | The identity-exchange loop ends for every behaviour of the world, within the attempts the schedule allows |
| `Backoff.DefaultAllowsFive` | apps/agent/internal/supervisor/sts_backoff.go:17-30 | The default ramp with its one-hour deadline allows exactly up to five exchange attempts |
| `StsBackoff.ParseBackoffSeconds` | apps/agent/internal/supervisor/sts_backoff.go:51-66 | The loop over the comma-separated tokens: refused at the first that is not a positive int64, otherwise one wrapped step each |
| `StsBackoff.ParseStsBackoffEnv` | apps/agent/internal/supervisor/sts_backoff.go:25-42 | Unset or refused gives the default ramp, accepted the listed one, always with the one-hour deadline |
| `StsBackoff.SecondsAreReadBack` | apps/agent/internal/supervisor/sts_backoff.go:51-66 | Every list of numbers written in decimal is read back as itself, and refused exactly when one is zero or beyond int64 |
| `StsBackoff.DelaysAreHonestIff` | apps/agent/internal/supervisor/sts_backoff.go:64 | All delays lie within a fifth of the number of seconds given, for every draw and every out-of-range conversion, if and only if that number is at most 7686143364 |
| `StsBackoff.HonestRampIsBounded` | apps/agent/internal/supervisor/sts_backoff.go:17-66 | Every value whose seconds are at most 7686143364, and every refused value, bounds the bootstrap to 4500 attempts |
| `StsBackoff.SleepsAreBoundedIff` | apps/agent/internal/supervisor/sts_backoff.go:64 | For a ramp of one accepted number, fewer than 4500 sleeps fit the hour if and only if the wrapped product is at least a second and leaves room for the jitter |
| `StsBackoff.WrappedSecondsNeverWait` | apps/agent/internal/supervisor/sts_backoff.go:64 | The value 9223372037 is accepted and wraps to a negative step: any number of sleeps returns at once |
| `SafeJoin.ParseRender` | apps/agent/internal/workspace/realhandler.go:854 | Cleaning is idempotent: a reduced path rendered and parsed again is itself |
| `SafeJoin.ReduceClimbs` | apps/agent/internal/workspace/realhandler.go:854-857 | The cleaned relative path starts with as many .. as the path climbs above its start |
| `SafeJoin.TextIsSegments` | apps/agent/internal/workspace/realhandler.go:855-857 | The two string tests on the cleaned path say that some cleaned segment begins with two dots |
| `SafeJoin.RelNeverEscapes` | apps/agent/internal/workspace/realhandler.go:859-864 | The second check, through Rel, never refuses what passed the first |
| `SafeJoin.RelLeadsToTarget` | apps/agent/internal/workspace/realhandler.go:859-864 | For all paths for which Rel answers, its answer joined to the base means what the target means |
| `SafeJoin.RelHasNoAnswerIff` | apps/agent/internal/workspace/realhandler.go:859-864 | Rel has no answer exactly when one path is absolute and the other is not, or the base climbs out of a place the target does not name |
| `SafeJoin.AcceptedIff` | apps/agent/internal/workspace/realhandler.go:847-866 | Accepted are exactly the non-empty relative paths that never climb above their start and have no cleaned segment beginning with two dots |
| `SafeJoin.AcceptedIsContained` | apps/agent/internal/workspace/realhandler.go:858-865 | The result's cleaned segments are the base's followed by those of the input, none of them .. |
| `SafeJoin.DotDotNamesAreRefused` | apps/agent/internal/workspace/realhandler.go:844-857 | A name that merely begins with two dots is refused although it never climbs |
| `SafeJoin.WriteFiles` | apps/agent/internal/workspace/realhandler.go:373-388 | The write loop writes entries in order and stops at the first refused one |
| `SafeJoin.WritesStayInside` | apps/agent/internal/workspace/realhandler.go:373-388 | Every file written lies under the workspace, one per entry up to the first refused entry, and all of them when none is refused |

## Left out

- Long polling: `claim_next` is one attempt; waiting for a notification and trying again is not modelled.
- Organisation scoping of claims, audit records, SSE publishing, metrics, logging and traceparents.
- The bodies of the workspace sink, the run engine and the hydrators: a hydrator succeeds, fails or crashes, the others are calls recorded in a log.
- Compare-and-set misses inside one service call: each call is a single transaction, so they cannot occur here.
- Crashed pods: an open connection ends by untracking; `register_sender` and the single reads of a reconcile pass are steps of `SubscriberRuns`, not methods. A subscribe handshake that times out counts as lost messages, and what a pod believes to be streamed stands for what the agent streams.
- `Pool.Dispatch` as a single method: its critical sections are the methods of `RunnerPool`, their order the paths of `DispatchPaths`, their interleaving the machine of `DispatchRuns`; the synthetic failure events it returns, and its refusal of an empty workspace id, are not modelled.
- The pending-dispatch counter is an input of the claim request and not tied to the dispatches in flight; `createActive`, `Snapshot`, `KnownIDs` and `Paths` are left out.
- `Close` of a runner (signals, grace periods): closing is one step and always succeeds.
- A decode error or a write error in the workspace process: the pipe breaks, and the pool sends nothing more on it. A command starts at most one child whose output is streamed; its other work writes nothing to the pipe.
- Rounding of float64 in the jitter: the factor is an exact real; the conversion to a duration truncates, and out of range it may give anything.
- File-system effects of writing files: symbolic links and failing writes.
- Disk sweep, janitor and draining exit: only "no active record at exit" is stated.
- Convergence.SidesConverge: covers one claim worker, and lease expiry only of rows other than this agent's own; a crash in the middle of a command is not modelled.
- Convergence.SidesAgreeIff: has the same scope, with restarts between commands and drains closed by the backend included.
- RegistryRuns.ShutdownIsSettled: takes the bearer check and its request as one step; `BeatKeepsSettledIff` says what happens otherwise.
- RunnerConservation.RunnersAreConserved: assumes one command per workspace at a time and no forgetting of an active record; without that only `NoTwoSendsOnOneRunner` and `CapHolds` are claimed.
- SubscriberRuns.SubscribersAreConnections: takes track, untrack and heartbeat as one step each, one home agent per run and one monotone clock.
