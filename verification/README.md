# Verified models of the managed-agents orchestrator

The orchestrator schedules one container per session in a single process. Its code is
asynchronous, so what runs between two `await`s is atomic and everything else interleaves. The
protocol models follow that cut: a state, the actions between suspension points, and theorems over
every sequence of enabled actions. Beside them stand classes with the source's own fields, whose
methods are proved to take exactly the steps the theorems speak of, and loops proved against
functions whose properties are lemmas.

`dafny verify dfyconfig.toml` checks everything.

| file | what it models |
|---|---|
| `ActiveAdmission.dfy`, `WarmAdmission.dfy` | the two admission protocols of the session container pool and their caps |
| `WarmSafety.dfy` | exactly when the warm protocol replaces no live entry, and which steps keep its cap |
| `WarmRequests.dfy` | exactly which requests keep the warm cap |
| `ContainerPool.dfy`, `ResourceNames.dfy` | what the pool owns in Docker: containers, per-session networks, fixed names |
| `QueueStore.dfy` | the in-memory and the SQLite queue of pending messages |
| `SessionProtocol.dfy` | runs, queueing, draining and failing of a session's messages |
| `Recovery.dfy` | what startup does with the state a crash left |
| `EventLog.dfy` | reading, tailing and resuming the JSONL event log |
| `RateLimiter.dfy` | the token bucket and its garbage collector |
| `Sse.dfy`, `SseRelay.dfy` | the SDK's event-stream parser and the router's relay framer |
| `ParentToken.dfy`, `Delegation.dfy` | the signed parent token and the sessions spawned with it |
| `Idempotency.dfy` | posts that carry an Idempotency-Key |
| `GatewayRequests.dfy` | the table of requests awaiting a response over a WebSocket |
| `MessageSplitter.dfy` | splitting a long reply for Telegram |
| `Prelude.dfy` | shared datatypes, text functions and one loop |

## Findings

Where the code does less than its comments or its callers might expect, the model follows the code.
Each entry names the exact condition under which the promise holds.

- The active cap needs two things of the callers. A session that enters on a stale look at its own
  live entry gets through without a reservation, and under every cap a continuation then exceeds it
  (`StaleEntryBreaksCap`); an entry is safe if and only if the session is not live (`EnterIsSafeIff`).
  `adopt` skips admission: it is safe if and only if the session is not waiting for its turn and the
  pool has room for it or counts it already (`AdoptIsSafeIff`).
- A warm boot can replace a live warm entry, whose container nobody then owns. A request is safe from
  that if and only if its signature is warm, or nothing of its agent is, or no boot of that signature
  may still land (`WantIsSafeIff`).
- The same return to an earlier signature can break the warm cap: the boot that lost its reservation
  lands all the same, or it releases by signature what another boot holds. `FlipBackFails` gives, for
  every cap above one, a run that ends past the cap and, one request later, replaces a live entry.
  Under a cap above one a request is safe if and only if its signature is warm or passes a check on
  the boots of that signature and the requests waiting for its agent (`RequestIsSafeIff`); a request
  that passes is safe under every cap, and one for a signature that nothing in the pool has always
  passes (`NewSignatureIsFine`). Step by step, a step is safe if and only if the check before it does
  not fire (`StepIsSafeIff`).
- A spawn that fails stops whatever has the name it asked for (`src/runtime/docker.ts:140-144`), so a
  limited spawn refused for the name of a live session's sidecar stops that sidecar, and its rollback
  removes that session's egress network (`CollisionStopsLive`). A limited spawn is all or nothing if
  and only if no live limited session has the same sanitised id (`AllOrNothingIff`). The pool itself
  checks nothing, but its callers see to it: only sessions with an environment are limited, those
  have ids the store minted (`LimitedIsMinted`), and minted ids never meet (`MintedIdsNeverMeet`). The
  keys clients choose could (`ChosenIdsCanMeet`); their sessions have no environment.
- A limited session that is acquired again while its own eviction is still stopping its containers
  cannot boot, exactly as long as its old sidecar has not stopped (`EvictionBlocksItsSession`).
- Startup leaves queued messages behind no run, if and only if the session was failed with a queue,
  or was idle and its head refused in every pass, or was adopted, its run seen to complete and its
  head refused then and afterwards (`LeftBehindIff`). The last is likely where the finished run's
  usage is what exceeds the quota (`CompletionCanStrand`). A failing adopted run leaves its session
  failed with a queue if and only if a message is posted for it, within quota, while it waits for
  the eviction; the queue is what was posted then (`AbandonStrandsIff`). A message posted again at
  startup counts as a second turn (`RestartRecovers`).
- A cursor that the catch-up read does not show replays the whole log, so a client that resumes from
  its last log id stays on a prefix of the log if and only if that read shows at least what it holds,
  or no read of the connection shows anything (`StaysPrefixIff`). The comment at
  `src/store/pi-jsonl.ts:219-222` intends the replay for truncated logs; a catch-up read that fails
  reads as empty and has the same effect (`FailedReadRepeats`). So has an id that is not of the log:
  the stream also carries frames with ids of their own (`src/orchestrator/server.ts:1600-1612` and
  1636-1648), and a client whose last frame was one of them is sent everything again
  (`ReplayRepeatsIff`).
- A chunk boundary inside a CRLF makes the SDK dispatch early exactly when something is pending there
  (`CutIsInvisibleIff`, at an input `CutCrlfCanShow`), and any number of cuts is invisible when nothing
  is pending at each (`QuietCutsAreInvisible`); the comment at `sdk/typescript/src/sse.ts:7-14`
  claims the standard's rules.
- The first Telegram message is empty when everything before the first break is white space
  (`EmptyMessages`), as for 4001 spaces (`SpacesGoOutEmpty`).

## Model

| member | source | states |
|---|---|---|
| `ActiveAdmission.ActiveCapHolds` | src/runtime/pool.ts:538-823 | in every interleaving without adoption, where a session enters only when it has no live entry, the sessions that are live or reserved, each counted once, never exceed the cap |
| `ActiveAdmission.StepKeepsCap` | src/runtime/pool.ts:538-580 | no single step takes the holders past the cap although the loop counts some of them twice |
| `ActiveAdmission.ReserveFits` | src/runtime/pool.ts:543-565 | passing the loop's comparison leaves room in the union of live and reserved |
| `ActiveAdmission.AdmissionIsFifo` | src/runtime/pool.ts:524-536 | whoever entered is, in order, whoever was served followed by whoever still waits: admission is first come, first served |
| `ActiveAdmission.LockMoves` | src/runtime/pool.ts:524-536 | a turn that ends takes the head off the lock, an entry joins its tail, no other step touches it |
| `ActiveAdmission.StampIsLastUse` | src/runtime/pool.ts:1174-1177 | in every run the stamp a victim is chosen by is the time the session's entry was last inserted, touched or adopted |
| `ActiveAdmission.StaleEntryBreaksCap` | src/runtime/pool.ts:648-673 | under every cap, a disciplined run and an orderly continuation of a stale entry in which more sessions hold a slot than the cap allows |
| `ActiveAdmission.EnterIsSafeIff` | src/runtime/pool.ts:599-673 | after any disciplined run every orderly continuation of a session's entry keeps the cap if and only if the session has no live entry when it enters |
| `ActiveAdmission.AdoptIsSafeIff` | src/runtime/pool.ts:1223-1262 | after any disciplined run every orderly continuation of an adoption keeps the cap if and only if the session is not waiting for its turn and it is counted already or there is room for it |
| `ActiveAdmission.SessionContainerPool.EnterAcquire` | src/runtime/pool.ts:663-673 | a pending session joins the promise it has; otherwise it takes the last place on the lock, or none when there is no cap |
| `ActiveAdmission.SessionContainerPool.CountWithReservations` | src/runtime/pool.ts:573-580 | the count is the live entries plus the reservations of others |
| `ActiveAdmission.SessionContainerPool.PickCapacityVictim` | src/runtime/pool.ts:582-592 | the victim is least recently used among the sessions neither busy nor the requester, and there is none only when no such session exists |
| `ActiveAdmission.SessionContainerPool.AdmitTurn` | src/runtime/pool.ts:541-566 | an eviction removes a least recently used session not busy at that moment; the capacity error is raised only when the cap is reached and every other live session is busy; the new state is the protocol's |
| `ActiveAdmission.SessionContainerPool.InsertLive` | src/runtime/pool.ts:786-794 | the insert of a claimed or spawned container is the protocol's step |
| `ActiveAdmission.SessionContainerPool.ReleaseReservation` | src/runtime/pool.ts:569-571 | the release in `finally` is the protocol's step |
| `ActiveAdmission.SessionContainerPool.EvictSession` | src/runtime/pool.ts:1184-1188 | an eviction removes the live entry and no reservation |
| `WarmAdmission.ReserveKeepsSlots` | src/runtime/pool.ts:460-496 | a turn that drops the stale entry, evicts the oldest and reserves keeps the cap |
| `WarmAdmission.LandKeepsSlots` | src/runtime/pool.ts:416-431 | a boot that holds its agent's reservation uses no more slots once landed |
| `WarmAdmission.ReleaseKeepsSlots` | src/runtime/pool.ts:498-508 | releasing by signature, whosever reservation it was, never raises the slots used |
| `WarmSafety.NoLandingOverwrites` | src/runtime/pool.ts:416-431 | in every interleaving of requests that are safe when made, boots, drops and claims, no boot that lands replaces a live warm entry |
| `WarmSafety.WantIsSafeIff` | src/runtime/pool.ts:350-364 | after such an interleaving no calm continuation of a request replaces a live entry if and only if the signature is warm, or nothing of the agent is, or no boot of the signature may still land |
| `WarmSafety.StepIsSafeIff` | src/runtime/pool.ts:452-508 | after an interleaving in which no step exposes the pool, a step keeps every such continuation within the cap if and only if it exposes nothing: it asks for no boot that lost its reservation, books over no awaited boot and frees no other boot's reservation |
| `WarmSafety.ExposesIff` | src/runtime/pool.ts:452-508 | the check before a step fires exactly when the step leaves a boot that may still land, of the desired signature, without its agent's reservation |
| `WarmSafety.FlipBackFails` | src/runtime/pool.ts:384-508 | for any agent, two signatures and every cap above one, a run that goes from one to the other and back, in which nothing lands while a request waits on the lock, ends past the cap, and the next request lets a boot replace a live entry |
| `WarmSafety.DroppedStaysCold` | src/runtime/pool.ts:1425-1430 | after an agent is dropped nothing of it gets warm, whatever boots are in flight, until it is asked for again |
| `WarmSafety.InflightIsBooting` | src/runtime/pool.ts:370-381 | in every run what a request would join is a boot of its signature that has started and not finished |
| `WarmRequests.WarmCapHolds` | src/runtime/pool.ts:350-522 | warm entries plus reserved boots that have not landed never exceed the cap, under any cap and in every interleaving of boots, drops, claims and requests that pass the check when made |
| `WarmRequests.RequestIsSafeIff` | src/runtime/pool.ts:350-522 | after any such interleaving a request that passes the check leaves every such continuation within the cap, and under a cap above one only such a request does |
| `WarmRequests.NewSignatureIsFine` | src/runtime/pool.ts:350-364 | a request for a signature that no boot in flight and no waiting request has passes the check |
| `WarmRequests.StepStaysSteady` | src/runtime/pool.ts:350-522 | for the desired signature of an agent: boots that may still land hold the reservation, no other signature waits beside or behind it, and ended boots free nothing of it; every step of the pool keeps this |
| `WarmRequests.UnfineExceeds` | src/runtime/pool.ts:452-508 | a request that does not pass is followed, under a cap above one, by steps and requests that pass which exceed the cap |
| `WarmAdmission.WarmPool.WarmForAgent` | src/runtime/pool.ts:350-364 | a disabled pool and a request already served do nothing; one in flight only records the wish; any other joins the lock |
| `WarmAdmission.WarmPool.FindOldestWarm` | src/runtime/pool.ts:1409-1415 | the oldest by `spawnedAt`, and none only when the pool is empty |
| `WarmAdmission.WarmPool.ReserveTurn` | src/runtime/pool.ts:452-496 | a victim is the oldest entry and is taken only when every slot is; a boot follows exactly when a reservation was made |
| `WarmAdmission.WarmPool.StartBoot` | src/runtime/pool.ts:371-392 | a boot whose signature is no longer wanted does not spawn |
| `WarmAdmission.WarmPool.LandBoot` | src/runtime/pool.ts:416-435 | the entry goes in exactly when the signature is still wanted and not already warm |
| `WarmAdmission.WarmPool.ReleaseReservation` | src/runtime/pool.ts:498-508 | the reservation goes when it has the boot's signature |
| `WarmAdmission.WarmPool.DropWarmForAgent` | src/runtime/pool.ts:1425-1430 | the wish and the entry go, reservations stay |
| `WarmAdmission.WarmPool.TakeWarm` | src/runtime/pool.ts:723-749 | a claim takes the agent's entry out of the pool |
| `ResourceNames.NamesMeetIff` | src/runtime/pool.ts:237-258 | two sessions share all their resource names or none, exactly as their sanitised ids agree or not |
| `ResourceNames.MintedIdsNeverMeet` | src/runtime/pool.ts:243-249 | ids of lower-case letters and digits never share a name |
| `ResourceNames.ChosenIdsCanMeet` | src/orchestrator/server.ts:96 | two different keys a client may choose that have the same names |
| `ResourceNames.LimitedIsMinted` | src/orchestrator/server.ts:1842-1909 | whatever sessions were created, with an environment or under a chosen key, and deleted, those with limited networking have minted ids |
| `ResourceNames.LimitedIff` | src/orchestrator/router.ts:1328-1341 | the limited sessions are exactly those created for an environment with limited networking whose row has not been deleted or made anew since; a chosen key never makes one |
| `ResourceNames.LimitedNeverMeet` | src/orchestrator/router.ts:1328-1341 | two sessions of one store with limited networking share no name |
| `ContainerPool.StartedIsOwnedOnceOrStopped` | src/runtime/pool.ts:825-1213 | every container ever started is stopped or belongs to exactly one active entry, warm entry or sidecar slot |
| `ContainerPool.LiveNamesNeverMeet` | src/runtime/pool.ts:926-1150 | live limited sessions never share a sanitised id |
| `ContainerPool.TeardownIsClear` | src/runtime/pool.ts:1193-1212 | once a session's agent and sidecar have stopped nothing is attached to its networks |
| `ContainerPool.LimitedNamesFree` | src/runtime/pool.ts:992-1026 | either a live session has the same sanitised id, and networks and name are taken, or the networks do not exist and nothing is attached to them |
| `ContainerPool.RemovalRestores` | src/runtime/pool.ts:983-988 | when exactly the networks that were there are in use, the rollback's removals leave the networks as before the spawn |
| `ContainerPool.AllOrNothingIff` | src/runtime/pool.ts:926-1150 | a limited spawn leaves containers and networks as before wherever it fails, if and only if no live limited session has the same sanitised id |
| `ContainerPool.CollisionStopsLive` | src/runtime/docker.ts:140-144 | a spawn refused for a live session's name costs that session exactly its sidecar and its egress network, while its entry and its agent stay |
| `ContainerPool.EvictionBlocksItsSession` | src/runtime/pool.ts:1184-1213 | while an eviction stops a limited session's containers a new spawn of the session gets no sidecar, exactly until the old one has stopped |
| `ContainerPool.OnlyItsSidecar` | src/runtime/pool.ts:1007-1030 | of all that runs only a live session's sidecar has the sidecar's name, and only it is on the egress network |
| `ContainerPool.MintedMeetsNobody` | src/runtime/pool.ts:243-258 | a minted id meets no live limited session when those have minted ids too |
| `ContainerPool.ServedAsOwned` | src/runtime/pool.ts:926-1150 | a live session of a limited signature has its agent on the confined network alone and its sidecar running on both of its networks; any other session's container is on neither |
| `ContainerPool.BusyStay` | src/runtime/pool.ts:582-592 | evictions of idle sessions leave every busy one, so those alone decide whether there is room |
| `ContainerPool.WithLimitedConserves` | src/runtime/pool.ts:1105-1117 | inserting a limited session's entry keeps containers and networks conserved |
| `ContainerPool.WithClaimConserves` | src/runtime/pool.ts:748-794 | moving a warm container to a session keeps them conserved |
| `ContainerPool.WithoutSessionConserves` | src/runtime/pool.ts:1184-1213 | removing a session with all it owns keeps them conserved |
| `ContainerPool.SessionContainerPool.DoSpawn` | src/runtime/pool.ts:825-899 | the session gets the container exactly when it starts, is ready and connects; at any other stage sessions, containers and networks are as before |
| `ContainerPool.SessionContainerPool.DoLimitedSpawn` | src/runtime/pool.ts:926-1150 | exactly when every stage succeeds and no live session has the same names: two networks, a sidecar and an agent owned by the session; otherwise what the rollback leaves, which is everything as before unless a live session has the same names |
| `ContainerPool.SessionContainerPool.BootLimited` | src/runtime/pool.ts:992-1081 | each stage is reached exactly when the one before succeeds; a refused sidecar costs whoever has its name |
| `ContainerPool.SessionContainerPool.Spawn` | src/runtime/docker.ts:86-145 | a spawn succeeds exactly when Docker starts it and its name is free, and a failure stops whatever has the name |
| `ContainerPool.SessionContainerPool.BootConfined` | src/runtime/pool.ts:686-712 | among minted ids a limited boot that succeeds serves the session confined with its sidecar, and any other leaves everything as before |
| `ContainerPool.SessionContainerPool.Rollback` | src/runtime/pool.ts:968-990 | from whatever stage: what the spawn started is stopped, and of the two networks those not in use are removed |
| `ContainerPool.SessionContainerPool.EvictSession` | src/runtime/pool.ts:1184-1213 | the session's containers are stopped and its networks really removed, nothing else changes |
| `ContainerPool.SessionContainerPool.ReapWarmEntry` | src/runtime/pool.ts:1475-1495 | the warm container is stopped, nothing else changes |
| `ContainerPool.SessionContainerPool.ReserveActiveSlot` | src/runtime/pool.ts:538-567 | only idle sessions are evicted, those used longest ago and no more than needed; refused exactly when the busy ones fill the cap |
| `ContainerPool.SessionContainerPool.AcquireForSession` | src/runtime/pool.ts:599-673 | the live entry when its signature fits and it answers, and otherwise a fresh container: confined with its sidecar exactly when the networking is limited, the agent's warm one exactly when it fits and can be claimed; refused exactly when busy sessions fill the cap; containers, networks and the cap are kept, and only idle sessions used longest ago and the agent's warm entry are lost |
| `ContainerPool.SessionContainerPool.Reuse` | src/runtime/pool.ts:612-661 | the live entry is kept and stamped exactly when it fits and answers, and evicted otherwise |
| `ContainerPool.SessionContainerPool.AcquireFresh` | src/runtime/pool.ts:675-823 | the same for a session without a live entry |
| `ContainerPool.SessionContainerPool.BootFresh` | src/runtime/pool.ts:686-822 | a limited session is booted confined and any other plain; it succeeds exactly when that boot does, and adds the session's entry alone |
| `ContainerPool.SessionContainerPool.BootPlain` | src/runtime/pool.ts:714-822 | the agent's warm container exactly when it has the signature and can be claimed, else a plain boot; a warm entry looked at is gone |
| `ContainerPool.SessionContainerPool.ClaimWarm` | src/runtime/pool.ts:722-817 | the warm container passes to the session exactly when it has its signature and can be claimed, and is stopped otherwise |
| `ContainerPool.SessionContainerPool.WarmForAgent` | src/runtime/pool.ts:350-450 | the agent has a warm entry of its template afterwards when the boot succeeds; at most one entry per agent and the cap in all; sessions untouched, and no other agent's entry lost but the oldest of a full pool |
| `ContainerPool.SessionContainerPool.ReserveWarmSlot` | src/runtime/pool.ts:452-496 | the stale entry is stopped, and one more only when the pool is full, the oldest |
| `ContainerPool.SessionContainerPool.OldestEntry` | src/runtime/pool.ts:1409-1415 | the oldest by `spawnedAt`, and none only when there is no warm entry |
| `ContainerPool.SessionContainerPool.BootWarm` | src/runtime/pool.ts:384-450 | a warm boot adds one owned container exactly when it starts, is ready and connects |
| `ContainerPool.SessionContainerPool.DropWarmForAgent` | src/runtime/pool.ts:1425-1430 | the agent's warm container is stopped, nothing else changes |
| `ContainerPool.SessionContainerPool.ReapIdle` | src/runtime/pool.ts:1330-1401 | exactly the expired, idle, reapable sessions and the expired warm entries go |
| `ContainerPool.SessionContainerPool.Shutdown` | src/runtime/pool.ts:1292-1328 | every container the pool ever started is stopped and no per-session network is left |
| `QueueStore.DurableQueueRefinesMemory` | src/store/sqlite.ts:1265-1361 | over every sequence of operations one table with growing row ids answers as a list per session does |
| `QueueStore.RepliesOfQueues` | src/store/memory.ts:321-355 | after any operations every reply is that of a queue per session: the oldest message put in and not taken, how many are left, and the sessions that have any |
| `QueueStore.FirstInFirstOut` | src/store/memory.ts:321-341 | what was taken since the last clear and then what is there is, in order, what was put in |
| `QueueStore.StepAgrees` | src/store/sqlite.ts:1298-1360 | each operation gives equal replies and keeps the two stores in agreement |
| `QueueStore.FirstRowIsHead` | src/store/sqlite.ts:1283-1287 | the lowest row id of a session is the head of its queue |
| `QueueStore.RowCount` | src/store/sqlite.ts:1289-1291 | counting a session's rows counts its queue |
| `QueueStore.InMemoryQueueStore.EnqueueEvent` | src/store/memory.ts:321-328 | the new state is the simple queue's |
| `QueueStore.InMemoryQueueStore.PeekEvent` | src/store/memory.ts:330-333 | the head of the session's queue |
| `QueueStore.InMemoryQueueStore.ShiftEvent` | src/store/memory.ts:335-341 | the head is returned and removed, an emptied queue forgotten |
| `QueueStore.InMemoryQueueStore.QueueSize` | src/store/memory.ts:343-345 | the length of the session's queue |
| `QueueStore.InMemoryQueueStore.ListSessionsWithQueued` | src/store/memory.ts:353-355 | the sessions with a queue, as a set |
| `QueueStore.InMemoryQueueStore.ClearEvents` | src/store/memory.ts:347-351 | the queue goes and its length is returned |
| `QueueStore.SqliteQueueStore.EnqueueEvent` | src/store/sqlite.ts:1298-1306 | the insert is the table's step |
| `QueueStore.SqliteQueueStore.PeekEvent` | src/store/sqlite.ts:1308-1325 | the row with the session's lowest id, as an event |
| `QueueStore.SqliteQueueStore.QueueSize` | src/store/sqlite.ts:1347-1350 | the number of the session's rows |
| `QueueStore.SqliteQueueStore.ListSessionsWithQueued` | src/store/sqlite.ts:1357-1360 | the sessions that occur in the table, as a set |
| `QueueStore.SqliteQueueStore.ShiftEvent` | src/store/sqlite.ts:1327-1345 | peek and delete together are the table's step |
| `QueueStore.SqliteQueueStore.ClearEvents` | src/store/sqlite.ts:1352-1355 | all rows of the session go and are counted |
| `SessionProtocol.QueueProtocolHolds` | src/orchestrator/router.ts:541-603 | in every interleaving of posts, completions and failures a queue has a run ahead of it, a session in flight has exactly one run, accepted messages are in order those dispatched or dropped and then those queued, turns count them, totals sum the successful runs |
| `SessionProtocol.MessagesAccountedFor` | src/orchestrator/router.ts:541-603 | told by the actions alone: the messages accepted by posts are, in order, those that runs began with and those that failures dropped, and then those queued; turns count them and totals sum the usage of completed runs |
| `SessionProtocol.HistoryIsOfActions` | src/orchestrator/router.ts:541-603 | what the protocol's history records is what the posts, runs, failures and completions of the action list say |
| `SessionProtocol.CompleteOrderly` | src/orchestrator/router.ts:1570-1588 | chaining the next message or going idle keeps a session's books |
| `SessionProtocol.FailOrderly` | src/orchestrator/router.ts:1863-1886 | a failure settles the queue as dropped and keeps the books |
| `SessionProtocol.PostOrderly` | src/orchestrator/router.ts:541-603 | accepting a message, queued or started, keeps the books |
| `SessionProtocol.RunsAfterPost` | src/orchestrator/router.ts:564-600 | a post starts a run only for a session that has none |
| `SessionProtocol.RunsAfterComplete` | src/orchestrator/router.ts:1570-1588 | the run that ends is replaced by one, or the session leaves the run |
| `SessionProtocol.AgentRouter.RunEvent` | src/orchestrator/router.ts:541-603 | the checks in order, then queue behind the run or start one |
| `SessionProtocol.AgentRouter.FinishRun` | src/orchestrator/router.ts:1564-1589 | usage is added once, the head chained or the session idle |
| `SessionProtocol.AgentRouter.HandleBackgroundFailure` | src/orchestrator/router.ts:1863-1886 | the queue is dropped and the session failed, unless it already left the run |
| `Recovery.AdoptedOrStopped` | src/index.ts:471-563 | proxies are left alone and every other container is adopted or stopped and not both, none twice, and a session has one exactly when some container of it answers |
| `Recovery.RowDecides` | src/index.ts:458-546 | a persisted row decides whose a container is, whatever its label says: a reachable container whose row fits leaves the session adopted, by it or one listed before; without a row the label decides, and a spare's never does |
| `Recovery.SidecarRunsIff` | src/index.ts:453-457 | whether a session's proxy runs is told by the last one listed for it |
| `Recovery.Inspect` | src/index.ts:473-524 | the checks in order give the session to attach to exactly when the container is eligible |
| `Recovery.AdoptContainers` | src/index.ts:471-563 | a session adopts the first of its containers that answers, where the persisted row and only without one the label says whose it is, and every other one is stopped |
| `Recovery.FailOrphans` | src/index.ts:593-602 | exactly the sessions in flight and not adopted are failed, with the restart message, and lose their queue |
| `Recovery.RestartRecovers` | src/index.ts:593-653 | from every crash state, with watched runs ending and new runs moving and ending between drain passes: queues of missing sessions are gone, interrupted sessions not adopted are failed and empty, and every session in flight is adopted and still watched, or adopted and about to fail, or its queue's first messages were dispatched once, in order, and its one run is at the last of them |
| `Recovery.LeftBehindIff` | src/index.ts:628-653 | after any schedule a session keeps a queue behind no run exactly when it had one and was failed, or was idle and never accepted in a pass, or was adopted, completed and was refused then and in every later pass |
| `Recovery.StrandedFate` | src/orchestrator/router.ts:1688-1721 | which fates leave the queue where it was, by the session's status at the crash |
| `Recovery.CompletionCanStrand` | src/orchestrator/router.ts:1688-1721 | a crash state and a schedule after which an adopted session is idle with its message still queued and no run |
| `Recovery.AbandonStrandsIff` | src/orchestrator/router.ts:1723-1734 | whatever clients, other sessions, runs and drain passes do between the clearing of the queue and the failure, the session ends failed, its queue is the messages posted for it meanwhile, in order, and so is empty exactly when none was |
| `Recovery.PostDuringAbandonStrands` | src/orchestrator/router.ts:1727-1734 | one post while a failing adopted run waits for its eviction stays queued behind a failed session |
| `Recovery.FateAfter` | src/orchestrator/router.ts:1611-1735 | what becomes of each session, observed or not, after any interleaving of drain passes, observers and runs |
| `Recovery.MissingQueueGoes` | src/index.ts:628-633 | a drain pass for a missing session clears its queue for good |
| `Recovery.FinalizeFromJsonl` | src/orchestrator/router.ts:1688-1721 | once the price is known the adopted run ends and the queue's head is posted under the verdict of that moment |
| `Recovery.AbandonRun` | src/orchestrator/router.ts:1723-1729 | an adopted run seen to have failed clears the queue, unless it left the run |
| `Recovery.FailAbandoned` | src/orchestrator/router.ts:1731-1734 | after the eviction the session fails and its queue stays as it is by then |
| `Recovery.Observe` | src/orchestrator/router.ts:1674-1735 | an observer's guard, end of the price lookup, clearing and failure are separate steps of the schedule; a session it no longer waits for has had its run ended, unless it had already left flight |
| `Recovery.RedispatchHead` | src/index.ts:635-646 | peek, post, and remove the head only when the post was accepted |
| `Recovery.DrainSession` | src/index.ts:628-652 | one pass of the drain loop |
| `Recovery.DrainQueues` | src/index.ts:628-653 | the loop passes over every listed session, each post with a verdict of its own, and takes only steps of the schedule |
| `Recovery.Meanwhile` | src/index.ts:593-653 | while the loop awaits, a watched run may be seen to end and a run started meanwhile may be acquired, complete or fail; each is a step of the schedule |
| `EventLog.ExactlyOnce` | src/store/pi-jsonl.ts:228-293 | over any connections, each resumed from the last id received, wherever each broke off and whatever its reads tore, what a client holds is a gap-free prefix of the log's events, no id twice |
| `EventLog.ReceivedIsPrefix` | src/store/pi-jsonl.ts:244-281 | the same for any reads that show prefixes of one list with distinct ids |
| `EventLog.ConnectionContinues` | src/store/pi-jsonl.ts:248-279 | a connection resumed after the first n events yields exactly those from n to the longest read |
| `EventLog.ReadToEnd` | src/store/pi-jsonl.ts:265-279 | a connection read to its end delivers all that any of its reads showed |
| `EventLog.UnknownCursorReplays` | src/store/pi-jsonl.ts:243-263 | a cursor the catch-up read does not show acts as no cursor |
| `EventLog.StaysPrefixIff` | src/store/pi-jsonl.ts:243-281 | a client that resumes from the last log id it holds stays on a prefix of the log exactly when the catch-up read shows at least what it holds, or no read shows anything |
| `EventLog.ReplayRepeatsIff` | src/store/pi-jsonl.ts:243-281 | a client that resumes from an id the catch-up read does not show, of the log or not, is sent events it has exactly when some read shows any |
| `EventLog.FailedReadRepeats` | src/store/pi-jsonl.ts:243-281 | a catch-up read that fails and one poll send the client the event it has |
| `EventLog.ReadsArePrefixes` | src/store/pi-jsonl.ts:91-118 | a read of any length shows a prefix of what a longer one shows, torn last line or not |
| `EventLog.LogIdsDistinct` | src/store/pi-jsonl.ts:360-506 | when lines have distinct ids free of ':' and tool calls distinct keys, no two events share an id |
| `EventLog.LineDistinct` | src/store/pi-jsonl.ts:425-489 | thinking, tool and message events of one line have distinct ids |
| `EventLog.AllOfLine` | src/store/pi-jsonl.ts:360-489 | every event id starts with its line's id |
| `EventLog.LineSays` | src/store/pi-jsonl.ts:360-506 | a line is mapped to exactly the events it is evidence of: model, level and compaction changes, a user's text or notice, each thinking block with text, each named call, the assistant's text, a tool's result or that it had none |
| `EventLog.LineInOrder` | src/store/pi-jsonl.ts:417-489 | a line has at most one event, but for an assistant's, which has its thinking in block order, then its calls in block order, then its text, each once and numbered by its place |
| `EventLog.LogTells` | src/store/pi-jsonl.ts:91-118 | an event is listed exactly when some line that is not white parses as one that says it |
| `EventLog.MapBlocks` | src/store/pi-jsonl.ts:429-468 | the two loops over the content blocks give the thinking events and then the tool events, numbered apart |
| `EventLog.ListBySession` | src/store/pi-jsonl.ts:101-117 | the loop gives the events of the lines that parse, in order |
| `EventLog.ReadLine` | src/store/pi-jsonl.ts:102-116 | a blank or malformed line gives no events |
| `EventLog.Resume` | src/store/pi-jsonl.ts:248-263 | the catch-up loop yields what follows the cursor and notes every id |
| `EventLog.Poll` | src/store/pi-jsonl.ts:274-280 | one poll yields what has not been seen, in file order |
| `EventLog.Follow` | src/store/pi-jsonl.ts:228-293 | a connection yields the catch-up and then each poll's news |
| `RateLimiting.RateBound` | src/rate-limit.ts:73-105 | over every sequence of checks and collections a key is allowed at most rpm + T*rpm/60000 times in any window of T milliseconds |
| `RateLimiting.GcInvisible` | src/rate-limit.ts:108-115 | a limiter that collects at any moments decides every check as one that never does |
| `RateLimiting.GcLevel` | src/rate-limit.ts:108-115 | a collected bucket was full again |
| `RateLimiting.RetryAfterIsExact` | src/rate-limit.ts:96-104 | after a denial with r seconds every check up to t+1000(r-1) is denied, and while checks are denied one at or after t+1000r is allowed |
| `RateLimiting.FirstBurst` | src/rate-limit.ts:73-105 | a key nobody used may send rpm requests at once, told each time how many are left, and is then denied |
| `RateLimiting.DeniedChecksCostNothing` | src/rate-limit.ts:80-99 | denied checks leave the bucket filling as if they had not been made |
| `RateLimiting.DeniedUntilFilled` | src/rate-limit.ts:87-96 | no check is allowed before a token is there again |
| `RateLimiting.LaterLevel` | src/rate-limit.ts:81-86 | refilling in two steps refills as in one |
| `RateLimiting.RateLimiter.Check` | src/rate-limit.ts:73-105 | decision and new buckets of one check; unlimited exactly when the limit is zero |
| `RateLimiting.RateLimiter.Gc` | src/rate-limit.ts:108-115 | exactly the buckets idle for more than ten minutes go |
| `RateLimiting.RateLimiter.constructor` | src/rate-limit.ts:58-61 | the limit is the floor of the setting, at least zero, and no bucket exists |
| `Sse.ChunkInvariance` | sdk/typescript/src/sse.ts:42-66 | the events depend only on the text, for every chunking that cuts no CRLF |
| `Sse.CutIsInvisibleIff` | sdk/typescript/src/sse.ts:75-86 | cutting a CRLF is invisible for every continuation exactly when nothing is pending at the cut |
| `Sse.QuietCutsAreInvisible` | sdk/typescript/src/sse.ts:42-66 | however a text is cut, the events are those of the text when nothing is pending at each cut CRLF |
| `Sse.CutCrlfCanShow` | sdk/typescript/src/sse.ts:75-86 | two data lines that are one event become two events when a chunk ends inside the CRLF between them |
| `Sse.CutCrlf` | sdk/typescript/src/sse.ts:48-55 | text cut inside a CRLF parses with a blank line where it was cut |
| `Sse.RoundTrip` | sdk/typescript/src/sse.ts:26-69 | events written out and read back in any chunks come back, each with the last id at or before it |
| `Sse.LinesInParts` | sdk/typescript/src/sse.ts:46-50 | splitting what one read left together with the next is splitting both at once |
| `Sse.ParseSse` | sdk/typescript/src/sse.ts:15-73 | the nested loops give the events of the lines read, then the final flush |
| `Sse.ReadChunk` | sdk/typescript/src/sse.ts:46-65 | the inner loop consumes every complete line and keeps the rest |
| `Sse.ReadNext` | sdk/typescript/src/sse.ts:48-65 | one pass of the inner loop takes one line off the buffer |
| `Sse.ReadLine` | sdk/typescript/src/sse.ts:49-65 | a blank line dispatches, a comment is skipped, a field is collected |
| `Sse.LineMeans` | sdk/typescript/src/sse.ts:55-65 | what any line means: a comment gathers nothing, a name alone an empty value, one space after the colon does not count, other names nothing |
| `Sse.TakeLine` | sdk/typescript/src/sse.ts:75-86 | the first line end by index search is the first of the line splitting |
| `SseRelay.ReadersAgree` | src/orchestrator/router.ts:757-770 | on LF-only plain text ending in a blank line the relay yields the SDK's data payloads, under any chunking of either, cut after the first `[DONE]` |
| `SseRelay.ReadersCompared` | src/orchestrator/router.ts:757-770 | on any LF-only plain text the SDK reports the relay's payloads and then the data after the last blank line; they agree exactly when there is none |
| `SseRelay.RelayStream` | src/orchestrator/router.ts:741-771 | however the stream is cut the relay yields the payloads of its text up to `[DONE]` |
| `SseRelay.DoneEnds` | src/orchestrator/router.ts:767-769 | the relay passes on the payloads up to and including the first `[DONE]`, all of them if there is none |
| `SseRelay.RelayFrames` | src/orchestrator/router.ts:757-770 | one read yields the frames it completes and keeps the rest |
| `SseRelay.NextFrame` | src/orchestrator/router.ts:757-769 | one pass takes one frame off the buffer and yields its payload, if it has one |
| `SseRelay.FrameData` | src/orchestrator/router.ts:760-765 | the data lines of a frame, one leading space off each |
| `SseRelay.TakeFrame` | src/orchestrator/router.ts:757-759 | the first frame of a buffer stays the first whatever arrives later |
| `ParentToken.CodecRoundTrip` | src/runtime/parent-token.ts:60-68 | decoding inverts encoding on every byte sequence; the encoding has only letters, digits, '-' and '_' |
| `ParentToken.MintThenVerify` | src/runtime/parent-token.ts:99-157 | a minted token verifies as its own payload until it expires and then not at all |
| `ParentToken.LastsItsTtl` | src/runtime/parent-token.ts:99-157 | a token minted with a lifetime verifies as what it was minted with for exactly that long, and for 86400000 ms when none is given |
| `ParentToken.VerifiesIff` | src/runtime/parent-token.ts:119-157 | any token verifies as a payload exactly when it splits into a part without a dot and an encoding of the signer's MAC for that part, the part decodes to the payload, and it has not expired |
| `ParentToken.VerifiedWasMinted` | src/runtime/parent-token.ts:119-157 | a token whose signed part was minted verifies, if at all, as the payload minted |
| `ParentToken.BytesOfSextets` | src/runtime/parent-token.ts:60-68 | regrouping to six bits and back is the identity for every length |
| `Delegation.DelegationIsBounded` | src/orchestrator/server.ts:1217-1248 | in every run a session's distance from its root plus its remaining depth is the depth its root was created with, and a child has one level less than its parent |
| `Delegation.SpawnsWereAllowed` | src/orchestrator/server.ts:1217-1248 | in every run, before the request that created a child a run was posted for its parent, and the template the parent's agent had at that moment lists the child's agent |
| `Delegation.TokenSpawns` | src/orchestrator/server.ts:1217-1265 | a token built for a session is good for 86400000 ms in whatever state it is presented: it creates a child of any agent on the captured allowlist that is there and not archived, one level below, and names the first reason otherwise; from then on it is invalid |
| `Delegation.PlainRequestCreates` | src/orchestrator/server.ts:1217-1265 | without a token, or with an empty header, a top-level session of the agent is created with its template's depth |
| `Delegation.PostingWasPosted` | src/orchestrator/router.ts:586-600 | the template a run carries was its agent's when the run was posted |
| `Delegation.DepthIsFixed` | src/orchestrator/router.ts:414-423 | a top-level session starts with its template's depth and no step changes a session |
| `Delegation.PostKeepsConsistent` | src/orchestrator/server.ts:1217-1265 | a request with a token that was minted keeps depths and parents consistent |
| `Delegation.MintKeepsConsistent` | src/orchestrator/router.ts:1382-1388 | a token minted from a session's row carries that row's depth and a template posted for it |
| `Delegation.SessionsApi.PostSession` | src/orchestrator/server.ts:1217-1265 | the checks in order, each with its error, then a session with one level less |
| `Delegation.SessionsApi.BuildToken` | src/orchestrator/router.ts:1382-1388 | the token carries the callable agents of the template its run was posted with and the session's depth, and spawns for a day |
| `Delegation.SessionsApi.CaptureTemplate` | src/orchestrator/router.ts:541-600 | a posted run keeps the template of its session's agent at that moment, or is refused when there is none |
| `Idempotency.OneActionAtATime` | src/orchestrator/server.ts:1362-1441 | in every interleaving an action starts for a key only when all before it have answered 5xx or outlived their TTL |
| `Idempotency.StartsIffAllPast` | src/orchestrator/server.ts:1364-1375 | after any run a request starts an action exactly when every action of its key answered 5xx or finished 300000 ms ago; otherwise it gets the reply of one that did not, at once if that has finished |
| `Idempotency.ResumedIsServed` | src/orchestrator/server.ts:1371-1441 | whoever resumes, the owner or one that waited, has been served |
| `Idempotency.ServedByItsAction` | src/orchestrator/server.ts:1364-1375 | a request joins the key's action that is not yet over, if there is one, and is served only that action's reply |
| `Idempotency.StartAfterOver` | src/orchestrator/server.ts:1365-1375 | no cached reply and nothing in flight means every earlier action of the key is over |
| `Idempotency.KeysApart` | src/orchestrator/server.ts:1362-1363 | request keys agree only for the same session and Idempotency-Key |
| `Idempotency.EventReplies.ReapExpiredEventReplies` | src/orchestrator/server.ts:530-534 | exactly the replies whose time has come go, the others stay as they are |
| `Idempotency.EventReplies.Arrive` | src/orchestrator/server.ts:1364-1375 | cached reply, action in flight, or new action, in this order |
| `Idempotency.EventReplies.Finish` | src/orchestrator/server.ts:1430-1441 | a reply below 500 is cached from now on, and the action is no longer in flight |
| `GatewayRequests.RequestsSettleOnce` | src/runtime/gateway-ws.ts:393-488 | in every order of events the pending ids are those issued and not settled, each settled once, none issued twice, and a response to no pending request changes nothing |
| `GatewayRequests.SettledByFirst` | src/runtime/gateway-ws.ts:374-488 | a pending request is settled with the answer of the first event that has one for it, its response, its timeout, the socket's end or the close, and by nothing else |
| `GatewayRequests.RequestIssues` | src/runtime/gateway-ws.ts:393-436 | an open, connected client issues a request, pending once it is sent and rejected when it cannot be; any other client changes nothing |
| `GatewayRequests.NothingLeftPending` | src/runtime/gateway-ws.ts:374-391 | after close or disconnect nothing is pending and every pending request was rejected once; a closed client settles nothing more |
| `GatewayRequests.SettledBy` | src/runtime/gateway-ws.ts:438-470 | a request is settled only by its own response, timeout or failed send, or by the end of the socket |
| `GatewayRequests.StepKeepsOnce` | src/runtime/gateway-ws.ts:393-488 | every event keeps the table in step with what was issued and settled |
| `GatewayRequests.GatewayWebSocketClient.HandshakeDone` | src/runtime/gateway-ws.ts:203-215 | a finished handshake makes the client connected, and does not undo a close |
| `GatewayRequests.GatewayWebSocketClient.Request` | src/runtime/gateway-ws.ts:393-436 | refused when closed or not connected, otherwise the next id, pending with its timer or rejected if the send fails |
| `GatewayRequests.GatewayWebSocketClient.HandleResponse` | src/runtime/gateway-ws.ts:458-469 | settles the request it names and disarms its timer, or does nothing |
| `GatewayRequests.GatewayWebSocketClient.RejectAll` | src/runtime/gateway-ws.ts:473-477 | the loop rejects each pending request once and disarms its timer |
| `GatewayRequests.GatewayWebSocketClient.HandleSocketError` | src/runtime/gateway-ws.ts:472-479 | all pending requests are rejected and the client is disconnected |
| `GatewayRequests.GatewayWebSocketClient.HandleSocketClose` | src/runtime/gateway-ws.ts:481-488 | the same for a closed socket |
| `GatewayRequests.GatewayWebSocketClient.Close` | src/runtime/gateway-ws.ts:374-391 | rejects all pending requests once, and does nothing the second time |
| `GatewayRequests.GatewayWebSocketClient.BeginConnect` | src/runtime/gateway-ws.ts:135-150 | nothing when connected, refused when closed, otherwise a socket |
| `MessageSplitter.FindCut` | docker/telegram-adapter/src/telegram.ts:118-123 | the three attempts give the cut |
| `MessageSplitter.SplitMessage` | docker/telegram-adapter/src/telegram.ts:113-129 | the loop gives the chunks the lemmas below speak of |
| `MessageSplitter.CutIsLastBreak` | docker/telegram-adapter/src/telegram.ts:120-123 | a position is the cut exactly when it is the last line feed in the second half of the budget, or else the last space there, or else the budget |
| `MessageSplitter.SplitsAtBreak` | docker/telegram-adapter/src/telegram.ts:113-129 | a long text goes out as what is before its break and then as the split of what is after it, without the white space between |
| `MessageSplitter.MessagesFit` | docker/telegram-adapter/src/telegram.ts:113-129 | every message has at most 4000 code units and there are at most length/2000 + 1 |
| `MessageSplitter.MessagesRebuild` | docker/telegram-adapter/src/telegram.ts:113-129 | the messages with white space put back between them are the text |
| `MessageSplitter.NothingVisibleLost` | docker/telegram-adapter/src/telegram.ts:124-127 | no visible character is lost, added or moved |
| `MessageSplitter.EmptyMessages` | docker/telegram-adapter/src/telegram.ts:113-129 | no message but the first is empty, and the first exactly for no text or when a text over the budget has only white space before its first break |
| `MessageSplitter.SpacesGoOutEmpty` | docker/telegram-adapter/src/telegram.ts:113-129 | 4001 spaces go out as an empty message |

## Left out

- WarmSafety.WantIsSafeIff: the warm lock is first come, first served among requests; that a landing or a release waits its turn behind requests queued before it is left out, so more interleavings are allowed than the one lock has, here and in RequestIsSafeIff. The run of `FlipBackFails` lands only while no request waits.
- WarmRequests.RequestIsSafeIff: under a cap of one the check is enough, but stricter than it need be: a request that only brings another signature of the same agent to the lock cannot take the one slot.
- Posts of clients while an adopted run is still watched, other than in `AbandonStrandsIff`: the schedules of startup end before the server listens.
- Streaming runs: a stream ends idle without draining the queue, so the queue theorem covers posts, completions and failures only; the relay framer of a stream is modelled apart.
- Cancel and session delete in the queue protocol: both await between check and effect.
- Agent lookup and quota checks of `runEvent`: one verdict per post. Time stamps of sessions are left out of the protocol.
- The interleaving of pool operations in `ContainerPool.dfy`: there pool methods run one at a time, because a warm claim awaits a probe before it takes the entry; the two admission files interleave. The `shuttingDown` flag is left out, so `Shutdown` starts when nothing is in flight.
- Collisions of the hash of spawn options and networking: a signature stands for what it is computed from.
- Ties of `lastUsedAt` and `spawnedAt`: any oldest entry may be the victim, where the source takes the first inserted.
- Stops and removals fail only as Docker refuses them; other failures of best-effort teardown are left out.
- The egress proxies' side of startup and the bookkeeping of persisted session-container rows.
- The catch-up read of a resumed connection is taken to see at least what earlier reads saw, as in a growing file read without failure; the idle timeout and abort of `follow` appear as a connection that breaks off.
- Text extraction, time stamps and usage of events; a line is what the parser makes of it, and a line cut short is taken to yield nothing or what the whole line yields, as JSON objects do.
- The order in which the two queue stores list sessions: compared as sets.
- Rounding: tokens, refill and costs are reals. How a request's limiter key is derived, and the bypass paths.
- UTF-8 decoding of a stream: chunks arrive decoded. Cancelling a relay and the run it finalises.
- HMAC and JSON: functions with a fixed-length result and an inverse. The lenient base64 reader skips what is outside the alphabet and ends at '='. That presented tokens were signed by the minter is a hypothesis.
- Environments, vaults and scopes of POST /v1/sessions; requests without an Idempotency-Key, each of which runs its own action.
- The handshake of the gateway client and its event listeners.
- HTTP routing, authentication, schemas, metrics, logs, audit, pricing, vault encryption, agent rows, portal and SDK wrappers.
