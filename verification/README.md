# A verified model of YasinHub's control plane

This project models the stateful protocols of YasinHub and proves what they keep, over every run
and every interleaving. Run `dafny verify dfyconfig.toml` to check all of it.

Times are integers (seconds, in the launcher milliseconds). What the operating system answers,
clock readings, random ids, crashes and failing file operations are inputs: the results hold for
all of them, and say which failures they depend on. Code that changes state is
modelled as classes and methods with the fields of the original; each method is proved against a
specification function, and the properties are proved of those functions and of whole runs.

| file | what it models |
|---|---|
| `TimedMap`, `MemorySharedState`, `FileNames`, `FileSharedState`, `Leases` | the shared state: one timed map with two backends, and the leases on it |
| `Confirmation`, `Interface` | confirm-then-execute across workers: the interleaving of steps, and the calls that are made of these steps |
| `Lifecycle`, `ExecutionStore`, `Fleets`, `StoreRuns` | the execution store: lifecycle, event log, durable records, fleets, recovery, crashes |
| `Correlation`, `GithubAdapter` | the correlation indexes, and GitHub events resolved through them |
| `ControlApi` | policy and control API over the execution store |
| `MondayBridge`, `AgentRuntime` | executions made from monday events, and events reported by agents |
| `Redaction`, `AuditLog` | redaction of JSON values, and the bounded audit log in memory and on disk |
| `Processes`, `Startup`, `ServiceHeal` | the launcher and the self-healing service start, against any operating system |
| `Options`, `Decimals` | helpers |

## What turned out to be false, and when it holds

- The two shared-state backends do not always answer alike: the file backend works on sanitised
  names. It is exactly the timed map on the sanitised spellings (`FileSharedState.Replay`), and it
  answers like the memory backend for a set of slots if and only if no two of them share a file and
  no two of their namespaces a directory (`BackendsAgreeIff`, with the example `ThreadKeysMix`).
- A confirmation token can act twice when a worker stalls. It acts at most once under a stall
  bound if and only if the bound is at most 601200 seconds, seven days less one hour
  (`StallBoundIsExact`).
- `retry_for_item` does not always retry an item whose execution has ended: a generated correlation
  id is never forgotten. When no execution of the item is open, a new one is made if and only if the
  last ready event brings a correlation id of its own, or one that is not processed yet
  (`MondayRuntimeBridge.RetryForItem`, with the example `RetryWithoutOwnId`). The mapper of webhook
  events always fills the id in, so only events handed to the bridge directly can lack it.
- An item does not always have at most one open execution: a retry for the empty item id takes the
  last ready event of any item. It keeps one open execution per item if and only if that event's item
  has no open one, or the event is not retriable (`RetryKeepsIff`, with the example `EmptyRetryDoubles`).
- A service start that returns true has not always recorded the process: a failing write of the PID
  file is swallowed after a start by runit. True comes without a record if and only if the start was
  by runit and that write failed (`StartHttpService`, with the example `UnrecordedStart`).
- `docs/JOB_LIFECYCLE.md` says that recovery marks stale non-terminal executions as failed. A
  stale execution ends if and only if it is not queued; a queued one is only given an error
  (`RecoveryEndsAllButQueued`).
- `complete` and `fail` write the result or the error before the transition is checked, so the
  payload of an ended record is not frozen (`EndedPayloadChanges`). A refused call leaves the record
  as it is if and only if the scrubbed text is the one it already has (`RefusedCompletionIff`,
  `RefusedFailureIff`); status, history, times and the cancel flag stay in any case.
- `register` checks a pull request only when repository and number are both passed. Pull requests
  keep their execution if and only if the call is refused or does not complete an unchecked key of
  another execution (`PrsStayIff`, with the example `PartialKeyMovesPr`).
- An event reported by an agent is written past the lifecycle table. A legal record stays legal if
  and only if the status is the one it has, or the first pause of a running execution
  (`ProjectionIsLegalIff`).
- A stored audit record normalises to itself if and only if the texts that normalisation adds
  survive scrubbing (`NormalizeTwiceIff`); records of the policy engine do (`PolicyRecordsSettle`).
- A failed audit rewrite leaves the cached list longer than the retention bound, by exactly the
  number of rewrites that failed in a row (`FileAuditStore.AppendByRewriting` and its class
  invariant).
- A retry by correlation id never takes the correlation along: the registration of the new
  execution is refused, and the refusal is swallowed (`RetryNeverMovesCorrelations`).

## Model

| member | source | states |
|---|---|---|
| `MemoryBackend.MemorySharedState.CompareAndSet` | yasinhub/storage/shared_state.py:94-113 | swaps exactly when the live value is the expected one, expired counting as absent; the new state is the timed map's |
| `MemoryBackend.MemorySharedState.TryAcquire` | yasinhub/storage/shared_state.py:115-125 | a lease is granted exactly when the slot is free, expired or the owner's own |
| `MemoryBackend.MemorySharedState.Release` | yasinhub/storage/shared_state.py:127-131 | releasing an expired or foreign lease changes nothing that any later operation can see, although the code does not purge here |
| `MemoryBackend.MemorySharedState.Replay` | yasinhub/storage/shared_state.py:58-136 | any script at non-decreasing times gets exactly the answers of the timed map |
| `TimedMap.SetThenRead` | yasinhub/storage/shared_state.py:76-92 | what is set is there until its time to live is over, or for good without one; deleting and clearing take away that slot, or the slots of that namespace, and nothing else |
| `FileBackend.FileSharedState.Replay` | yasinhub/storage/shared_state.py:139-278 | any script, whichever files cannot be unlinked, gets exactly the answers of the timed map on the sanitised spellings, in which clearing a namespace leaves the stuck slots |
| `FileBackend.FileSharedState.ReadRecord` | yasinhub/storage/shared_state.py:152-169 | an expired file counts as absent whether or not it can be unlinked, and an unreadable one is no record |
| `FileNames.CompanionsNeverHoldData` | yasinhub/storage/shared_state.py:145-189 | no temporary or lock file of any slot is the data file of any slot |
| `FileNames.SharedTmpIsGuardedByOneLock` | yasinhub/storage/shared_state.py:171-189 | slots share a temporary file exactly when they share the lock that guards it |
| `FileNames.PlainNamesAreDistinct` | yasinhub/storage/shared_state.py:145-150 | names that sanitising leaves alone never share a file |
| `FileNames.FilesAreCanonical` | yasinhub/storage/shared_state.py:145-150 | two slots share their data file exactly when they sanitise alike |
| `FileNames.NamesAreSanitised` | yasinhub/storage/shared_state.py:145-150 | a data file is named by its namespace, of which 64 characters count, and its key, of which 200 do, with `_` for all but letters, digits, `-`, `_` and, in keys, dots |
| `Backends.SameAnswers` | yasinhub/storage/shared_state.py:58-278 | both backends on one script: equal answers when names and namespaces are told apart and every cleared file can be unlinked |
| `Backends.BackendsAgreeIff` | yasinhub/storage/shared_state.py:58-278 | the backends agree on every script over a set of slots if and only if no two slots share a file and no two namespaces a directory |
| `Backends.ThreadKeysMix` | yasinhub/storage/shared_state.py:145-150 | a script over two conversation keys that sanitise alike is answered differently by the two backends |
| `Leases.LeaseExcludes` | yasinhub/storage/shared_state.py:115-131 | until a lease runs out no other owner gets it, whatever the others try, and a late release by an earlier owner does not free it |
| `Leases.BodiesNeverOverlap` | yasinhub/execution/reconciliation.py:229-269 | reconcile bodies shorter than the 30 s lease never overlap, over every interleaving |
| `Leases.OverlapIffOverrun` | yasinhub/execution/reconciliation.py:229-269 | while one body runs another worker gets in if and only if the first lease has run out |
| `Confirmation.TokenActsAtMostOnce` | yasinhub/interface/engine.py:262-335 | over every interleaving of workers with stale sessions a token causes at most one mutation, if no worker stalls 601200 s between expiry check and claim |
| `Confirmation.StallBoundIsExact` | yasinhub/execution/policies.py:183-206 | a stall bound guarantees at most one mutation per token if and only if it is at most 601200 s |
| `Confirmation.MutationsAreAsRequested` | yasinhub/interface/engine.py:318-335 | however workers interleave and stall, a mutation is the operation, execution and actor requested under its token |
| `Confirmation.StaleWorkerGetsThrough` | yasinhub/interface/engine.py:307-335 | a worker that lost the consume race goes on when its own session copy names the token and no live claim exists |
| `Confirmation.SecondClaimFails` | yasinhub/execution/policies.py:183-204 | while a token's claim is alive no worker gets a second one |
| `Interface.YasinInterface.HandleControlRequest` | yasinhub/interface/engine.py:198-260 | a request is offered exactly when the operation is supported and has its execution id and the user is no unmapped Slack user; the action can then be found under its token for 3600 seconds, with its actor, or anonymous |
| `Interface.YasinInterface.HandleCancelControl` | yasinhub/interface/engine.py:104-115 | after a cancel the session's token is nowhere to be found in the shared state |
| `Interface.YasinInterface.Consume` | yasinhub/interface/session.py:188-196 | consuming is the protocol's peek, swap and settle steps, and returns the action only to the worker that swapped it out |
| `Interface.YasinInterface.HandleConfirm` | yasinhub/interface/engine.py:262-335 | a confirmation is a run of this worker's protocol steps; it is turned away for exactly the reason there is. When it takes the action, its claim is free and the role may mutate, the execution store changes as its operation says: start and resume run it, pause pauses it, cancel cancels it, retry and re-run add a queued execution, approve and reject decide and change no execution; the store changes only together with an entry in the protocol's log |
| `Interface.OperationsAreActions` | yasinhub/interface/engine.py:318-335 | each of the eight operations is the action of that name, and any other text is unsupported |
| `Interface.CallsActAtMostOnce` | yasinhub/interface/engine.py:262-335 | calls on top of any interleaved past are an interleaving again, so the at-most-once bound carries over |
| `Lifecycle.AdvanceKeepsWellFormed` | yasinhub/observer/execution_store.py:240-282 | an allowed transition keeps history legal and ending in the status, and finished, started and cancelled marks in step with it |
| `Lifecycle.TerminalEndsHistory` | yasinhub/observer/execution_store.py:24-32 | a terminal status is the last of its history, and that history has no longer legal continuation |
| `Lifecycle.LifecycleIsTable` | yasinhub/observer/execution_store.py:24-32 | the transitions allowed are those of the table, and a status is terminal exactly when nothing may follow it |
| `ExecutionStore.TransitionTrail` | yasinhub/observer/execution_store.py:291-322 | the two events of a transition tell the log exactly one new status, of exactly one execution |
| `ExecutionStore.LogTellsHistory` | yasinhub/observer/execution_store.py:134-238 | the statuses of an execution's created and state-changed events, in order, are exactly its history |
| `ExecutionStore.MoveKeepsJournal` | yasinhub/observer/lifecycle_ext.py:137-159 | after a transition, as before, exactly the executions whose last persist landed are in sync with their records on disk, the log telling which persist that was |
| `ExecutionStore.SyncStays` | yasinhub/observer/lifecycle_ext.py:120-159 | over any stretch of a process life in which all persists land, everything that was in sync stays so and everything new is |
| `ExecutionStore.SelectedKeepsTrail` | yasinhub/observer/execution_store.py:220-221 | listing one execution's events keeps all that the log tells about it |
| `ExecutionStore.ExecutionObserverStore.ListEvents` | yasinhub/observer/execution_store.py:208-238 | the events that pass all the filters given, in the order of their numbers; a positive limit keeps the last ones, zero and negative ones keep all |
| `ExecutionStore.NamesApart` | yasinhub/observer/lifecycle_ext.py:114-126 | temporary files of records are never taken for records on reload |
| `ExecutionStore.RecordsAreNamed` | yasinhub/observer/lifecycle_ext.py:114-118 | a record is filed under the first 128 characters of its id, with `_` for all but letters, digits, `-` and `_` |
| `ExecutionStore.ReplaceKeepsDisk` | yasinhub/observer/lifecycle_ext.py:124-128 | replacing one record keeps every durable record legal and behind memory, makes this one mirror memory, and shortens no durable history |
| `ExecutionStore.ExecutionObserverStore.CreateExecution` | yasinhub/observer/execution_store.py:134-170 | a fresh id gets a queued record with redacted metadata and its event; it is in sync with the redacted record on disk exactly when its persist landed; a crash in between still leaves legal records and a disk behind memory |
| `ExecutionStore.ExecutionObserverStore.Persist` | yasinhub/observer/lifecycle_ext.py:120-130 | under any failure or crash the durable records stay legal and behind memory, and no other record's files are touched; the redacted record is on disk when both steps went through, and otherwise a failure is counted or the process has died |
| `ExecutionStore.ExecutionObserverStore.Transition` | yasinhub/observer/lifecycle_ext.py:137-159 | the table decides; record and log follow; a refused transition changes nothing; otherwise the execution is in sync, with the redacted record on disk, exactly when the persist landed, and no other files are touched |
| `ExecutionStore.ExecutionObserverStore.Cancel` | yasinhub/observer/execution_store.py:337-346 | every known execution ends, on disk too when the persist lands; one that has ended is returned unchanged, without an event and without touching the disk |
| `ExecutionStore.ExecutionObserverStore.Complete` | yasinhub/observer/execution_store.py:348-359 | the result is written first and sticks even when the transition is refused; status, history and disk follow the table |
| `ExecutionStore.ExecutionObserverStore.Fail` | yasinhub/observer/execution_store.py:361-372 | the error is written first, also on an ended record; status, history and disk follow the table |
| `ExecutionStore.RefusedCompletionIff` | yasinhub/observer/execution_store.py:348-359 | a refused completion leaves the record alone exactly when the scrubbed result is the one it has, and its lifecycle in any case |
| `ExecutionStore.RefusedFailureIff` | yasinhub/observer/execution_store.py:361-372 | a refused failure report leaves the record alone exactly when the scrubbed error is the one it has, and its lifecycle in any case |
| `ExecutionStore.EndedPayloadChanges` | yasinhub/observer/execution_store.py:348-372 | a cancelled execution whose result and error are changed by a late completion and a late failure |
| `ExecutionStore.ExecutionObserverStore.CancelFleet` | yasinhub/observer/execution_store.py:434-484 | exactly the live workers' executions are cancelled, each worker shows its execution's status, the fleet its aggregate; when all persists land everything stays in sync with the disk |
| `Fleets.CancelSettlesWorkers` | yasinhub/observer/execution_store.py:445-469 | workers are conserved, one with an execution ends, a live one with a known execution shows that execution's status |
| `Fleets.CancelSettlesFleet` | yasinhub/observer/execution_store.py:470-473 | a fleet whose workers all have executions ends succeeded, failed, cancelled or completed with failures |
| `Fleets.EndingsMean` | yasinhub/observer/execution_store.py:410-432 | the four endings are told apart exactly by which statuses occur |
| `Fleets.SecondCancelIsIdle` | yasinhub/observer/execution_store.py:434-474 | cancelling the stored fleet again finds nothing to do and stores the same workers and status |
| `Fleets.SortOrders` | yasinhub/observer/execution_store.py:377-398 | workers are stored in worker-id order |
| `Fleets.SortPermutes` | yasinhub/observer/execution_store.py:377-398 | storing a fleet neither loses nor duplicates a worker |
| `ExecutionStore.ExecutionObserverStore.RecoverStale` | yasinhub/observer/lifecycle_ext.py:161-197 | exactly the stale executions are reported and treated, a dry run changes nothing; when all persists land everything stays in sync with the disk |
| `ExecutionStore.RecoveryEndsAllButQueued` | yasinhub/observer/lifecycle_ext.py:172-196 | a stale execution ends if and only if it is not queued; a queued one keeps everything but its error |
| `ExecutionStore.LoadNext` | yasinhub/observer/lifecycle_ext.py:49-86 | every JSON file of the directory parses and belongs to the execution it names |
| `ExecutionStore.LoadedIsConsistent` | yasinhub/observer/lifecycle_ext.py:49-86 | what is loaded is legal, is never ahead of what was in memory, and is unchanged where the last persist succeeded |
| `ExecutionStore.ExecutionObserverStore.Restart` | yasinhub/observer/lifecycle_ext.py:49-112 | what is loaded from a record on disk has each field of that record, empty task and session ids becoming unknown; and whatever was in sync and has not changed since its persist comes back with its whole lifecycle and every field scrubbed: ids, agent, error, result and metadata. What is loaded is legal and at most as far as memory was |
| `StoreRuns.Drive` | yasinhub/observer/lifecycle_ext.py:49-197 | any operations, crashing anywhere and reloading, keep the lifecycle, log and disk invariants; durable histories never shrink; without restart and crash the log is only added to, nothing is dropped and ended records stay as they ended; and when every persist lands, restarts and crashes lose nothing at all |
| `StoreRuns.DurableEndingIsFinal` | yasinhub/observer/lifecycle_ext.py:120-145 | a terminal status that has reached the disk stays the end of the durable history for good |
| `Correlation.CorrelationStore.Register` | yasinhub/execution/correlation.py:70-146 | a conflict leaves all five indexes as they were; otherwise every field given is the call's and every other one as it was, metadata is overridden by the redacted new one, and the record's execution, item, pull request and sha lead to it, while no other entry changes |
| `Correlation.RegisterKeepsWired` | yasinhub/execution/correlation.py:86-146 | no index entry dangles, and no correlation id and no item ever leads to another execution than before |
| `Correlation.ItemsHaveOneExecution` | yasinhub/execution/correlation.py:86-95 | all records that carry one item share their execution |
| `Correlation.PrKeyIsInjective` | yasinhub/execution/correlation.py:97 | a pull-request key tells repository and number apart, whatever the repository is called |
| `Correlation.OtherPrsUntouched` | yasinhub/execution/correlation.py:142-143 | filing one pull request never touches the entry of another |
| `Correlation.PrsStayIff` | yasinhub/execution/correlation.py:96-104 | all pull requests keep their execution if and only if the call is refused or does not complete an unchecked key of another execution |
| `Correlation.PartialKeyMovesPr` | yasinhub/execution/correlation.py:96-143 | a call with only a repository moves a pull request from one execution to another |
| `Correlation.CarefulCallsKeepPrs` | yasinhub/execution/correlation.py:86-146 | calls that pass the whole key, complete none, or leave it alone keep every pull request's execution |
| `Correlation.BindingsArePermanent` | yasinhub/execution/correlation.py:70-170 | over any run of calls correlation ids and items keep their execution, and so do pull requests when the calls are careful |
| `Correlation.CorrelationStore.Resolve` | yasinhub/execution/correlation.py:172-206 | a match means that all resolvable keys lead to one execution, and is the record of the first that leads anywhere; ambiguous that two differ, not found that none leads anywhere |
| `GithubAdapter.GitHubAdapter.ApplyToExecutions` | yasinhub/integrations/github/adapter.py:31-87 | an unmatched or ambiguous event changes neither store; a match changes only the agreed execution, and no pull request moves |
| `GithubAdapter.OnlyTheMatchedMoves` | yasinhub/integrations/github/adapter.py:72-85 | what an event changes is the matched execution, still open; its status stays exactly when a merge met one that was not running |
| `ControlApi.PolicyEngine.AuthorizeAndRecord` | yasinhub/execution/policies.py:170-223 | a request is a duplicate exactly while its event id is claimed, and is allowed exactly when it is no duplicate and the role may mutate |
| `ControlApi.ControlAPI.Handle` | yasinhub/execution/control_api.py:87-181 | the whole world after a request, and its reply with the execution shown or the reason of a refusal, status requests included, are those of the specification, unless a persist kills the process; known executions evolve by the lifecycle |
| `ControlApi.RefusedRequestsChangeNothing` | yasinhub/execution/control_api.py:87-181 | failed, unauthorised and duplicate requests change nothing but the claim on the event id, and no request moves a known correlation |
| `ControlApi.ActingIsAllowed` | yasinhub/execution/control_api.py:87-181 | a request that changes executions or events has a mutating action, an allowed role, a free event id and no failure reply |
| `ControlApi.AdmissionMeans` | yasinhub/execution/control_api.py:87-181 | a request is about its execution id, or else the execution its correlation leads to; it is admitted exactly when its action is mutating, there is such an execution or a decision is asked for, the role is no viewer and the event id is free |
| `ControlApi.RequestsAreFulfilled` | yasinhub/execution/control_api.py:183-374 | an admitted start or resume is the transition to running, pause that to paused, cancel the cancellation, retry and re-run a fresh queued execution of the same task with the metadata of the old one and its id, approve and reject an entry of true or false; any other request changes neither executions nor approvals |
| `ControlApi.RetryNeverMovesCorrelations` | yasinhub/execution/control_api.py:305-334 | a retry never moves an existing correlation to the new execution, and files nothing under the id of another execution's correlation |
| `ControlApi.OneActPerWindow` | yasinhub/execution/policies.py:183-206 | over any trace two requests with one event id both change the execution store only if the second comes at least seven days after the first made its claim |
| `ControlApi.Serve` | yasinhub/execution/control_api.py:87-374 | serving a trace gives every request the reply, and the API the world, that the specification of traces gives; it stops early exactly when a persist kills the process |
| `MondayBridge.MondayRuntimeBridge.ProcessEvent` | yasinhub/integrations/monday/runtime_bridge.py:32-106 | a new execution, registered and logged, is made exactly for a ready event with an item whose correlation is not processed yet, which it is from then on; a crash is a death persisting that execution, before it is filed |
| `MondayBridge.ProcessedKeeps` | yasinhub/integrations/monday/runtime_bridge.py:32-106 | an event makes at most one execution, of its own item, and keeps one open execution per item, a crash included |
| `MondayBridge.MondayRuntimeBridge.RetryForItem` | yasinhub/integrations/monday/runtime_bridge.py:135-147 | an open execution is returned as it is; otherwise a new one is made for the last ready event if and only if that names an item and brings its own correlation id or one not processed yet, and no execution changes if not; the empty item id stands for any item |
| `MondayBridge.RetryWithoutOwnId` | yasinhub/integrations/monday/runtime_bridge.py:135-147 | an event without a correlation id of its own is retriable before its generated one is processed and never after, one with its own always |
| `MondayBridge.RetryKeepsIff` | yasinhub/integrations/monday/runtime_bridge.py:135-147 | a retry keeps one open execution per item if and only if it is not one for the empty item id whose event is retriable and about an item with an open execution |
| `MondayBridge.EmptyRetryDoubles` | yasinhub/integrations/monday/runtime_bridge.py:135-147 | a retry for the empty item id gives an item with an open execution a second one |
| `MondayBridge.MondayRuntimeBridge.DrainPending` | yasinhub/integrations/monday/runtime_bridge.py:149-155 | the last hundred ready events are processed one after the other, and the count is how many of them had an execution to show; a crash is a death at one of them |
| `MondayBridge.DrainMakesFirstSeen` | yasinhub/integrations/monday/runtime_bridge.py:149-155 | after draining exactly the items first seen in the events have a new execution, and exactly their correlations are processed in addition |
| `MondayBridge.MondayRuntimeBridge.CancelForItem` | yasinhub/integrations/monday/runtime_bridge.py:118-133 | the execution the item leads to has ended afterwards and, if the process lives, is returned; no other changes |
| `MondayBridge.BridgeKeepsOneOpen` | yasinhub/integrations/monday/runtime_bridge.py:24-155 | the bridge's invariant leaves at most one open bridge-made execution per item |
| `MondayBridge.CreationKeepsBridge` | yasinhub/integrations/monday/runtime_bridge.py:67-76 | a creation for an unprocessed correlation keeps every other item's open execution the one its item leads to |
| `MondayBridge.Run` | yasinhub/integrations/monday/runtime_bridge.py:32-155 | over any run mixed with any other use of the store, with retries that name an item, an item has at most one open bridge-made execution; and every execution that came up is one the bridge made for an item a ready event was about, under an id a step brought for that item, or one others asked for; up to a crash in a persist too, which is exactly what ends a run early |
| `AgentRuntime.RepeatsChangeNothing` | yasinhub/adapters/agent_runtime.py:249-299 | a stream with repeated event ids projects exactly like the stream without the repeats |
| `AgentRuntime.InProcessAgentRuntimeAdapter.IngestAll` | yasinhub/adapters/agent_runtime.py:249-299 | ingesting a stream gives the executions and events of its distinct part |
| `AgentRuntime.ProjectionIsLegalIff` | yasinhub/adapters/agent_runtime.py:262-280 | a reported status keeps a legal record legal if and only if it is the current one or the first pause of a running execution |
| `Redaction.RedactTwice` | yasinhub/observer/execution_store.py:44-61 | redacting what was redacted changes nothing, at any depth |
| `Redaction.RedactCleans` | yasinhub/observer/execution_store.py:44-61 | redaction leaves no value under a secret-looking key, no scrubbable text and no excess depth |
| `Redaction.FixedIffClean` | yasinhub/observer/execution_store.py:44-61 | redaction leaves alone exactly the values with no secret under a secret key, no scrubbable text and no excess depth |
| `Redaction.TextsAreRedacted` | yasinhub/observer/execution_store.py:157 | redacting metadata whose values are texts is redacting the object they make |
| `AuditLog.NormalizeTwiceIff` | yasinhub/storage/audit_store.py:54-61 | a stored record normalises to itself if and only if the added texts survive scrubbing |
| `AuditLog.PolicyRecordsSettle` | yasinhub/execution/policies.py:240-260 | records with text ids and outcome, as the policy engine writes them, normalise to fixed records |
| `AuditLog.MatchingInTurn` | yasinhub/storage/audit_store.py:90-101 | filtering by one criterion after the other selects what meets all of them, in order |
| `AuditLog.Select` | yasinhub/storage/audit_store.py:90-102 | the answer is the last rows that meet every criterion, at least one being allowed; it raises exactly when a row still in play at a time criterion has no time |
| `AuditLog.FileAuditStore.Load` | yasinhub/storage/audit_store.py:120-140 | the loaded list is the last retained rows of the lines that could be read and parsed; loading twice reads once; the file stays as it is |
| `AuditLog.FileAuditStore.AppendByRewriting` | yasinhub/storage/audit_store.py:152-162 | a failed rewrite is raised, leaves the file alone and the whole list cached, one row longer over the bound; a successful one leaves the last retained rows in cache and file |
| `AuditLog.FileAuditStore.AppendLine` | yasinhub/storage/audit_store.py:163-171 | a failed line is not raised: the row stays cached, and the file keeps its lines and may end in remains of the new one; a successful one adds exactly its line, behind torn remains as one line of junk |
| `AuditLog.FileAuditStore.Append` | yasinhub/storage/audit_store.py:149-171 | whatever the file does, the whole state after an append is that of the specification: loaded if need be, then cut and rewritten, or left longer, or written behind; it raises exactly when the record cannot be normalised or a rewrite fails |
| `AuditLog.OneLife` | yasinhub/storage/audit_store.py:120-207 | however files behave, in one process life the cached list is the end of what was loaded and stored, and is longer than the bound by at most the number of appends that failed in a row |
| `AuditLog.SameAnswers` | yasinhub/storage/audit_store.py:54-207 | if no file operation of the script fails, the file store restarted at will answers it like the memory store: the last retained rows, filtered, limited, raising alike |
| `Startup.PreflightHubPort` | yasinhub/startup.py:289-399 | looks only, beginning with the owners of the port; free exactly when no owner is listed and nothing listens; hub exactly when every owner is verified, or where owners cannot be listed a verified hub answers for health; foreign exactly when a foreign process is found |
| `Startup.StopHubGracefully` | yasinhub/startup.py:402-451 | at most one signal, a SIGTERM right after the process was verified as the hub, never to the launcher; true only when it was seen gone, and always when it was seen gone at or after the signal, or goes within the attempts; a bounded number of questions |
| `Startup.WaitPortReleased` | yasinhub/startup.py:454-488 | true exactly when a probe saw the port not listening, and then at the first such probe, within a bounded number of them |
| `Startup.VerifyHubRunning` | yasinhub/startup.py:560-643 | running exactly when this call saw a live verified process, port evidence and a health answer; and the verdict is the one the answers make |
| `Startup.SlowStartsCount` | yasinhub/startup.py:752-778 | a hub that does not own its port yet is waited for: however often it is found still starting, short of the attempts there are, it is found running once it is sound |
| `Startup.MarkedMeans` | yasinhub/startup.py:77-80 | a command line is the hub's exactly when one of the two markers occurs in it |
| `Processes.ContainsMeans` | yasinhub/startup.py:168-170 | occurring in a text means beginning at some place of it |
| `Startup.RunStartup` | yasinhub/startup.py:659-805 | for any operating system: foreign or unclear ports lead to no signal and no start, every signal is justified, there is at most one start and a clear one, and success is a new verified process that is not touched after its start; one that does not verify has its record dropped and, unless it was found foreign, is seen gone when it goes in time. A free port and a new hub that comes up in time always lead to a start; a port owned by the hub alone, which goes in time, a port free in time and a new hub that comes up in time always lead to a restart |
| `ServiceHeal.VerifyPortOwnership` | yasinhub/ports.py:208-252 | owned is known exactly when owners can be listed, and then says whether the process is one of them |
| `ServiceHeal.PreflightService` | yasinhub/service_lifecycle.py:447-541 | looks only, beginning with the owners of the port; free exactly when the first look lists no owner and the second finds the port unoccupied; every owner, or where they cannot be listed every candidate, is on the list of what it was found to be; same exactly when all of them are the service, and where owners cannot be listed its health answer confirms it; a sole verified owner is found to be the same |
| `ServiceHeal.StopServiceGracefully` | yasinhub/service_lifecycle.py:652-722 | at every act of the call every process had been strictly verified since it began; true exactly when each is verified, goes within its attempts or is gone already, and none is alive at the end |
| `ServiceHeal.HealSameServiceOwner` | yasinhub/service_manager.py:686-805 | nothing is touched before every old process was verified again; true exactly when a managed service has a usable supervisor, all are stopped and known to be gone, a raising probe being a refusal, and the port is free at one of fifty-one looks after that |
| `ServiceHeal.GoingIsStopped` | yasinhub/service_lifecycle.py:548-589 | a verified old instance without a supervisor that gets the signal and goes within fifty further looks is stopped and gone |
| `ServiceHeal.GoneByMeans` | yasinhub/service_lifecycle.py:577-589 | the wait for a process ends at the first look that does not find it alive, and fails exactly when every look does |
| `ServiceHeal.VerifyRuntimeRunning` | yasinhub/service_manager.py:188-291 | running exactly when this call saw a live identified process, port evidence, and the health answer where there is an endpoint; and the verdict is the one the answers make |
| `ServiceHeal.StartViaRunit` | yasinhub/service_manager.py:849-899 | the supervisor start is justified and the only start; true only when a process was found running after it, and always when one comes up within the attempts; recording the process's id is the last thing done, and failing at it still gives true |
| `ServiceHeal.SpawnServiceProcess` | yasinhub/service_manager.py:902-986 | an own spawn only of an unmanaged service that has its place; true exactly when the child comes, is recorded, does not exit while it settles and is found running, and then nothing is done to it after its start; otherwise its record is dropped, and a child that stayed unverified is stopped: seen dead, or asked to go and then forced; one whose verdict raises is left alone |
| `ServiceHeal.SoundChildRuns` | yasinhub/service_manager.py:312-352 | a child that is recorded, does not exit while it settles, and is sound after being found still starting fewer than twenty times makes the spawn succeed |
| `ServiceHeal.StartHttpService` | yasinhub/service_manager.py:608-683 | for any operating system: foreign or unclear ports lead to no act at all, every act is justified at its moment, at most one clear start; true only for a process found running after it and left alone since, which is on record except exactly when runit started it and writing the PID file failed. It is true when the port is idle and the start goes well, managed or not, and when a sole verified owner is healed and the start goes well |
| `ServiceHeal.UnrecordedStart` | yasinhub/service_manager.py:886-893 | a start under runit on a system that cannot write PID files returns true with no id of the running process on record |

## Left out

- HTTP routing, dashboard, command line, Slack and monday network clients: thin plumbing.
- `yasinhub/adapters/http_transport.py`: the retry loop, the idempotency cache and the health counters would only add easy members, and its event-id set forgets ids in no particular order.
- Intent parsing, the redaction patterns and `str` of non-text values: abstract functions, of which only idempotence of the scrubber and identity on texts are assumed.
- `str.isalnum` is modelled for ASCII letters and digits only.
- Fields of executions and workers that no property speaks about (workspace, capabilities, worker progress, results and errors) and the metadata of store events are not modelled; results and GitHub summaries are texts instead of JSON, and metadata maps texts to texts.
- Execution ids are unique and have distinct file names: a reused id overwrites its record, and colliding names overwrite each other's files. `upsert_execution` is modelled for new records only; the projection that overwrites records is in `AgentRuntime`.
- Thread interleavings inside one process: the locks of the original are taken for granted. Interleavings of workers are modelled for confirmation and reconciliation only.
- `Interface.YasinInterface.HandleConfirm`: a confirmation runs without interruption here; interruptions are what `Confirmation` is about. The role of the confirming user is a parameter.
- `Confirmation.TokenActsAtMostOnce`: tokens are fresh, the two threads-to-session lookups are not modelled, and the policy and lifecycle checks of the control API are one free choice.
- `ControlApi.Serve`: one process life, with no agent runtime bound; a status reply without an execution tells only how many executions it lists; audit records and request ids are not modelled, and approvals are kept under the pair of execution and action instead of one lower-case text.
- `Leases.BodiesNeverOverlap`: the lock store does not raise and workers have distinct names; with a raising store the original runs the body without the lock. The findings of the body are left out.
- `MondayBridge.Run`: one process life, since the bridge forgets what it processed when it starts anew; and correlations of ready events and items correspond one to one, which does not hold for one item on two boards when events bring no correlation id.
- `Correlation.CorrelationStore.Register`: issue and pull-request numbers are integers; the original converts them midway, and raises with the record half updated when that fails.
- `AuditLog.FileAuditStore.Load`: a line that is JSON but no object, or not UTF-8, on which the original raises; no line this store writes, whole, torn or run together with a torn one, is of that kind.
- `Startup.RunStartup`: the injected test doubles, log files and printed diagnostics are left out.
- `ServiceHeal.StartHttpService`: services without a port, status files, the pattern-based stop and the test-double branches are left out.
- `ExecutionStore.ExecutionObserverStore.RecoverStale`: one clock reading serves the whole pass.
- AI providers, memory adapters, context gathering, configuration, token files and signature checks are not part of this model.
