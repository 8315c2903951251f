# Sync server: a verified model

A sync server keeps collaborative documents. Clients submit Automerge change sets over WebSockets; the engine merges
each into a cached document, appends it to a per-document log in a SQL store, saves a snapshot now and then, and
broadcasts the change to the document's other subscribers, on its own node and through a bus on every other one. A
client that reconnects is replayed what it missed.

This project models that core as transition systems, one action per lock-protected region or store call, and proves
what every run of them guarantees, whatever the interleaving. Where the program works by updating objects (store,
engine, hub, connections, cluster node, decision cache) the model also has the object, its methods proved against the
functions the transition systems are built from.

| file | what it models |
|---|---|
| `Core`, `Runs` | operations, logs; runs of a transition system |
| `Crdt`, `CrdtInstance` | documents as sets of changes, rebuilding from snapshot and tail; an encoding that meets the laws assumed |
| `EngineProtocol` | the cached-document protocol: any number of nodes and goroutines on one document |
| `EngineDurability`, `EngineReload` | what holds on any number of nodes: numbering, acks, broadcasts; the cost of a reload |
| `EngineCache` | what holds on the document's one node: cache, loaders and snapshots against the log, through crashes |
| `EngineNodes` | several nodes: what each cached document knows, and when a snapshot of it lacks entries |
| `EngineDelete`, `EngineDeleteRuns` | deletes that cross requests in flight: which stages are safe, and a run for each that is not |
| `EngineLimits` | where the guarantees end, with runs that break them; a failing resolver |
| `Transactions`, `SqlStore` | interleaved append transactions under both locking shapes, refining an atomic store; the store object |
| `EngineServer`, `EngineRuns`, `EngineRefinement` | the engine object over many documents; building runs; each submit, snapshot and export is a run of the protocol |
| `Replay`, `Connection`, `Delivery` | replay batches, bounded queues, subscribe-then-replay racing with commit-then-broadcast |
| `System` | engine and fan-out together, end to end |
| `Hub`, `HubServer` | slots and subscriber sets, as a protocol and as objects |
| `Cluster`, `ClusterServer` | local delivery plus publish, and the origin-filtered receive, as a protocol and as an object |
| `Auth` | the webhook decision cache |
| `Locks` | lock order and deadlock freedom |

Automerge enters as three functions: `decode` gives the changes of a payload or fails, `save` and `load` turn a document
into bytes and back. Merging is union, so it is idempotent and commutative. Two laws are used: a saved document loads
back, and it is never the empty byte string. `CrdtInstance` exhibits an encoding that satisfies them.

What other parties decide (whether a store call fails, what a resolver or an authorization endpoint answers, whether a
closed connection still takes a frame, which bus subscribers a publish reaches, the clock) is a parameter of the action
or of the method, so every statement covers all outcomes.

Six findings come with runs that show them, and with what decides whether they happen:

- Deleting a document while requests on it are in flight can lose an acked change of its new life.
  `NothingIsLostExactlyWhen` names the ten stages that the row's delete or the drop of the cached document must not
  cross, proves that nothing is lost when they are not crossed, and for each gives a run that loses a change.
- Ops committed on another node never reach this node's cached document, so a later snapshot of it lacks them, and
  loading from that snapshot loses them (`RemoteChangeMissingFromSnapshot`, `RemoteChangeMissingFromManualSnapshot`).
  `NothingLacksExactlyWhen` says over every run when no snapshot lacks an entry: every save was of a document that had
  the entries other nodes committed between its load and the snapshot's number.
- A node that dies between a commit and the save it owes leaves a tail as long as the interval (`CrashOwesASave`);
  `ReloadIsShortExactlyWhen` says when a reload is short.
- A node that dies between the commit of entry 1 and the created event leaves a document whose created event never fires
  (`CrashSilencesCreated`), although it is described as firing exactly once; `NothingAnnouncedBeforeDurable` says exactly
  when it has fired.
- A resolver whose reply leaves out part of what it was sent loses acked changes (`ReplyLosesExactlyWhen`: for whatever
  was submitted before, exactly such replies do); with replies that keep what was sent nothing is lost
  (`NothingIsLost`).
- The authorization TTL runs from the moment a decision is stored, not from the endpoint's answer
  (`ServedLaterThanTtl`); `AgeIsWithinExactlyWhen` says how old a served decision can be.

One more place where code and prose differ, modelled as the code has it: `docs/protocol.md` line 85 says that a client
that syncs without subscribing is auto-subscribed, while `handleSync` only records its session
(`SyncAloneReceivesNothing`).

## Model

| member | source | states |
|---|---|---|
| `Core.SinceSelects` | internal/storage/sqlite.go:251-257 | on a gap-free log the tail after a cursor, negative or too large included, is exactly the entries numbered above it, ascending |
| `Crdt.Rehydrate` | internal/crdt/automerge.go:42-58 | the loop yields the snapshot's document joined with every change of the tail, and fails exactly when the snapshot does not load or a payload does not merge |
| `Crdt.SnapshotPlusTail` | internal/crdt/automerge.go:42-62 | a snapshot with the first n entries plus the later ones is the whole log, up to what the snapshot holds beyond it |
| `CrdtInstance.InstanceLaws` | internal/crdt/automerge.go:31-37 | the laws assumed of save and load are satisfiable |
| `EngineDurability.NothingAnnouncedBeforeDurable` | internal/sync/engine.go:116-143 | over any nodes, interleaving and crashes: every broadcast and every ack ever made is the log entry at its number, no number is broadcast or acked twice, acks follow broadcasts; created fires at most once per life, and has fired if and only if entry 1 is committed, its submit is past the event and no crash took it before |
| `EngineDurability.HistoryOnlyGrows` | internal/sync/engine.go:96-144 | until a delete every step, crashes included, only extends log, broadcasts and acks, so an announced entry stays what it was |
| `EngineDurability.StepKeepsDurable` | internal/sync/engine.go:96-280 | every region and store call keeps the durability invariant |
| `EngineReload.ReloadIsShort` | internal/sync/engine.go:136-140 | with interval k > 0, on any number of nodes, unless the save owed at the log's last multiple of k was missed, the tail a load replays is shorter than k whenever nobody is between commit and save |
| `EngineReload.ReloadIsShortExactlyWhen` | internal/sync/engine.go:136-140 | in every run, whatever saves failed and whoever died: the tail is shorter than k if and only if the log is, or that save was not missed, or a snapshot was taken by hand within the last k numbers |
| `EngineReload.StepKeepsSaves` | internal/sync/engine.go:116-261 | every step keeps the books: each due number has its snapshot, was missed, or is still owed by a submit |
| `EngineCache.StepKeepsHome` | internal/sync/engine.go:96-280 | every region and store call keeps pointers, lock, cache, snapshots and concurrent loaders in agreement with the log |
| `EngineCache.CacheAgreesWithLog` | internal/sync/engine.go:96-144 | in every reachable state the cached document contains the fold of the whole log, holds beyond it only refused or in-flight payloads, and equals it when there are none |
| `EngineCache.RestartRebuildsEveryAck` | internal/sync/engine.go:198-242 | after a crash at any step, loading succeeds and yields the whole log, every acked change included |
| `EngineCache.SnapshotsMeanTheLog` | internal/sync/engine.go:224-261 | every stored snapshot has a number within the log, and with the later entries means the whole log up to refused payloads |
| `EngineCache.StaleLoadIsNeverInstalled` | internal/sync/engine.go:198-220 | among any number of concurrent loaders, what the second look leaves in the map contains every commit; a load that missed one finds an entry and is dropped |
| `EngineCache.SomebodyCanStep` | internal/sync/engine.go:109-110 | an unfinished goroutine, or the holder of the document lock it waits for, can always take its next step |
| `EngineNodes.StepKeepsTracked` | internal/sync/engine.go:96-280 | on any number of nodes every step keeps each cached document equal to what it was loaded from and appended, up to refused and in-flight payloads, while no snapshot lacks an entry |
| `EngineNodes.CacheKnowsItsOwn` | internal/cluster/node.go:259-263 | in every run whose saves cover their numbers, that is what every node's cached document is, and loading yields the whole log |
| `EngineNodes.NothingLacksExactlyWhen` | internal/sync/engine.go:136-140 | over every run of any number of nodes: no snapshot ever lacks an entry it is numbered for if and only if every save, periodic or manual, was of a document having the entries other nodes committed between its load and that number |
| `EngineNodes.SavedStoreLoadsTheLogExactlyWhen` | internal/sync/engine.go:246-261 | after the first save in question loading yields the whole log if and only if each such entry has its changes in the saved document or in later entries; below a higher snapshot it does no harm |
| `EngineNodes.CoveredReadsOffTheLog` | internal/sync/engine.go:224-242 | without refused payloads the condition depends only on the load point, the own entries and the payloads in the log |
| `EngineDelete.StepKeepsLasting` | internal/api/documents.go:106-112 | every step, deletes and drops that cross no hazard and resolver replies that keep what was sent included, keeps cache, snapshots, loaders and pending saves containing the log |
| `EngineDelete.NothingIsLost` | internal/api/documents.go:106-112 | in every run whose deletes cross no hazard and whose resolver replies keep what was sent, whatever else is in flight, the cached document and what a load yields contain the whole log |
| `EngineDeleteRuns.NothingIsLostExactlyWhen` | internal/api/documents.go:106-112 | for every set of tolerated hazards: no run loses a change if and only if the set is empty, or holds only due saves in a deployment without periodic snapshots |
| `EngineDeleteRuns.HazardLoses` | internal/sync/engine.go:96-261 | for each of the ten stages, a run in which a delete crosses only that and an acked change is lost |
| `EngineLimits.FailingResolverIsTransparent` | internal/sync/engine.go:151-194 | a run whose resolver errs, is not consulted or replies with unloadable bytes is state for state the run without a resolver |
| `EngineLimits.ReplyLosesExactlyWhen` | internal/sync/engine.go:174-193 | whatever was submitted before, whatever is submitted now and whatever loadable state the resolver replies, a run after which cache and load contain the log if and only if the reply contained the state and the change it was sent; otherwise an acked change is lost |
| `EngineLimits.RemoteChangeMissingFromSnapshot` | internal/cluster/node.go:259-263 | two nodes, no delete, no refusal: a periodic save after which loading loses an acked change committed on the other node |
| `EngineLimits.RemoteChangeMissingFromManualSnapshot` | internal/sync/engine.go:246-261 | the same by a manual snapshot, for any snapshot interval |
| `EngineLimits.DeleteRaceHappens` | internal/api/documents.go:106-112 | for every hazard, a run that loses an acked change exists, with one-byte payloads and a lawful encoding |
| `EngineLimits.RemoteLossHappens` | internal/cluster/node.go:259-263 | so does one that loses another node's change |
| `EngineLimits.CrashOwesASave` | internal/sync/engine.go:116-140 | for every interval k, a crash between commit and save leaves, with nobody in flight, a tail of length k |
| `EngineLimits.CrashSilencesCreated` | internal/sync/engine.go:116-127 | a crash between the commit of entry 1 and the event leaves, with nobody in flight, a document whose created event has not fired |
| `EngineServer.Engine.LoadDoc` | internal/sync/engine.go:224-242 | the document is rebuilt from the highest snapshot and the operations above it; either read failing is an error |
| `EngineServer.Engine.State` | internal/sync/engine.go:198-220 | returns the entry or installs a new one with the loaded document; a failed load changes nothing; other documents untouched |
| `EngineServer.Engine.ApplyTo` | internal/sync/engine.go:151-194 | the document becomes the merge, or the resolver's loadable reply; a failed merge changes nothing; an erring resolver is reported |
| `EngineServer.Engine.CommitMerged` | internal/sync/engine.go:116-143 | the payload becomes the next entry, is saved when due, and exactly the log's new last entry is announced; or, when the append fails, nothing is committed or announced |
| `EngineServer.Engine.Submit` | internal/sync/engine.go:96-144 | log, snapshots, cache and answer of the document after every outcome, no other document changes; an ack announces exactly the new entry, is reported once, and as created exactly for entry 1; without a fault it acks if and only if the payload is not empty and decodes and the document is cached or rehydrates |
| `EngineServer.Engine.Replay` | internal/sync/replay.go:15-50 | hands over the exact partition of the document's log after the cursor, or the batches before the refused one; no batch when the log cannot be read |
| `EngineServer.Engine.Snapshot` | internal/sync/engine.go:246-261 | without a fault it succeeds if and only if the row exists and the document is cached or rehydrates; it returns the log's length and stores the saved document under it; otherwise no snapshot changes |
| `EngineServer.Engine.Export` | internal/sync/engine.go:264-272 | returns the saved cached document, loading it first where needed; without a fault it succeeds if and only if the document is cached or rehydrates |
| `EngineServer.Engine.Forget` | internal/sync/engine.go:276-280 | drops the cached document and nothing else |
| `EngineServer.Engine.DeleteDoc` | internal/api/documents.go:106-112 | a deleted row takes log, snapshots and cached document with it; a missing row or failing delete changes nothing |
| `EngineRefinement.SubmitIsARun` | internal/sync/engine.go:96-144 | whatever fails, the object's submit is a run of the protocol with the same view and answer, the run's broadcasts are the ops the object announces, and other goroutines and nodes are left alone |
| `EngineRefinement.SnapshotIsARun` | internal/sync/engine.go:246-261 | so is the object's manual snapshot: same view and returned number, log and broadcasts untouched |
| `EngineRefinement.ExportIsARun` | internal/sync/engine.go:264-272 | so is the object's export, with the same document |
| `EngineRefinement.CallsKeepTheDocument` | internal/sync/engine.go:96-280 | after any sequence of submits, snapshots, exports, forgets and deletes, with any store failures, the log is gap-free, and both the cached and a reloaded document are the log up to refused payloads |
| `EngineRefinement.CallsSucceed` | internal/sync/engine.go:96-272 | after any sequence of calls with any failures, from the empty store on and under every locking shape, a faultless submit of a payload that decodes is acked with the next number, a manual snapshot of a written document is taken under the latest, and the document opens |
| `Transactions.RunsRefineAtomicStore` | internal/storage/postgres.go:236-296 | every interleaving of appends, deletes, creates, snapshots and rollbacks, under either locking shape, is a run of the atomic store with the same documents and the same returned numbers |
| `Transactions.AtomicOperationsRun` | internal/storage/mysql.go:240-303 | the other direction: from every good state, under every shape, each operation the atomic store allows can be run statement by statement once its lock is free, with the same result, other transactions staying where they are |
| `Transactions.AppendsAreGapFree` | internal/storage/mysql.go:258-303 | in every reachable state each document's committed operations are numbered exactly 1..latest_seq, no appender meets a taken number, and no two appenders of one document are past their read |
| `Transactions.StepRefines` | internal/storage/sqlite.go:183-249 | every statement is invisible or is one atomic operation |
| `Transactions.CommitRefines` | internal/storage/postgres.go:250-296 | a commit is the atomic append of its own session and payload under the next number |
| `Transactions.StepKeepsOk` | internal/storage/mysql.go:240-303 | every statement keeps the tables gap-free and every reading of latest_seq still true under its lock |
| `SqlStore.Database.AppendOp` | internal/storage/sqlite.go:201-249 | without a fault it succeeds under every shape, whether the row exists or not, and is the atomic append; it fails exactly when a statement it reaches fails, and then leaves no trace |
| `SqlStore.Database.DeleteDocument` | internal/storage/sqlite.go:183-197 | removes the document with its operations and snapshots; a missing row is an error |
| `SqlStore.Database.SaveSnapshot` | internal/storage/sqlite.go:290-302 | inserts or replaces the snapshot at its number; needs the document row |
| `SqlStore.Database.GetOpsSince` | internal/storage/sqlite.go:251-274 | the scan returns exactly the log's tail after the cursor |
| `SqlStore.Database.GetLatestSeq` | internal/storage/sqlite.go:276-286 | the length of the log, 0 without a row |
| `SqlStore.Database.GetSnapshot` | internal/storage/sqlite.go:304-319 | the snapshot with the highest number, or none |
| `Replay.ChunksPartition` | internal/sync/replay.go:15-50 | the pieces concatenate to the ops, none exceeds the size, none is empty unless nothing is owed |
| `Replay.BatchesPartition` | internal/sync/replay.go:15-50 | the batches concatenate to what is owed, are numbered 1..total, and only the last is done |
| `Replay.CountMatches` | internal/sync/replay.go:21-24 | the rounded-up division, at least 1, is the number of pieces |
| `Replay.BatchSize` | internal/sync/engine.go:75-78 | a positive configured size is used, anything else means 500 |
| `Replay.Stream` | internal/sync/replay.go:15-50 | the loop delivers exactly the partition, or on a delivery error the prefix before it |
| `Connection.EnqueueKeeps` | internal/server/connection.go:244-260 | offering a frame keeps the connection invariant whether the queue has room, is full, or is closed |
| `Connection.HandOverKeeps` | internal/server/connection.go:132-143 | handing over a batch keeps it: the replay goes on with the rest, and the last batch establishes that the client has caught up from the cursor it asked for |
| `Connection.ReceiveKeeps` | internal/server/hub.go:119-134 | so does a live message, delivered or withheld as an echo |
| `Delivery.StepKeepsGood` | internal/server/connection.go:71-205 | every step of readers, writers, commits and broadcasts keeps hub, queues and log in agreement |
| `Delivery.NoLostUpdate` | internal/server/connection.go:121-144 | an open connection that replayed from a cursor without error, or whose subscribe from it has returned and could read the log, was sent or has queued every later entry whose broadcast has ended, unless authored under the session recorded when it reached the connection, however subscribe and commits raced |
| `Delivery.SubscriberCatchesUp` | internal/server/connection.go:132-143 | in every run an open subscriber whose handler has returned, and for whom the log could be read, has caught up from the cursor of its last subscribe or a lower one |
| `Delivery.SubscribeCompletes` | internal/sync/replay.go:26-48 | from every reachable state a subscribe on an idle open connection can run to its end, handing over every batch |
| `Delivery.ConnectionsComeAndGo` | internal/server/connection.go:71-90 | a new connection is accepted open and idle, and a closed idle one can leave, after which it is in no set |
| `Delivery.LiveOrderIsCommitOrder` | internal/server/hub.go:119-134 | the live messages of an open subscriber are the entries broadcast since it joined, strictly ascending, each withheld if and only if authored under the session recorded when it reached the connection |
| `Delivery.NoSilentDrop` | internal/server/connection.go:180-268 | at most 256 frames are queued; while open, written plus queued is everything offered, in order; a connection is closed at most once |
| `Delivery.SyncAloneReceivesNothing` | internal/server/connection.go:146-157 | a connection outside the subscriber set has received no live message, however often it synced |
| `System.AckedOpIsKeptAndDelivered` | internal/sync/engine.go:96-144 | end to end, through crashes: every op ever acked is its log entry, acked once, loading yields its changes, and every connection that has replayed from a lower cursor was sent it or has it queued, unless it was an echo there |
| `System.StepKeepsOk` | internal/sync/engine.go:109-142 | every joint step keeps the two sides on one log, with one broadcast at a time |
| `System.CommitNeverWaits` | internal/sync/engine.go:54-59 | whenever the engine can append, no broadcast is in progress |
| `System.BroadcastGoesOn` | internal/server/hub.go:119-134 | from the commit to the ack the next step of the broadcast is always enabled, whatever the connections do |
| `Hub.SlotsAreConserved` | internal/server/hub.go:51-69 | the active count is the number of reservations held and within the maximum; at every release it is positive, so its guard decides nothing |
| `Hub.ReservesExactlyWhen` | internal/server/hub.go:51-59 | in every reachable state a new connection gets a slot if and only if there is no maximum or fewer are held |
| `Hub.ConnectionRuns` | internal/server/server.go:99-141 | whenever there is a slot, a new connection can be served, subscribe and leave; it is in the set meanwhile and its slot comes back |
| `Hub.EachReservationIsReturnedOnce` | internal/server/server.go:99-141 | in every run a slot is reserved once per connection and given back once, by early failure or by teardown, never by both |
| `Hub.HubAndConnectionsAgree` | internal/server/hub.go:74-115 | a subscriber is served and has the document recorded, no stored set is empty, first-subscriber reports exceed last-subscriber reports by one exactly while the document is present |
| `Hub.SubscribedExactlyWhileJoined` | internal/server/hub.go:74-115 | a connection is in a document's set if and only if a subscribe put it there and it was not deregistered; after that it never comes back |
| `Hub.AddedMembers` | internal/server/hub.go:101-109 | subscribing adds exactly that connection to exactly that document |
| `Hub.RemovedMembers` | internal/server/hub.go:74-88 | deregistering removes exactly that connection from exactly the recorded documents |
| `Hub.TeardownKeepsOk` | internal/server/hub.go:74-96 | after teardown the connection is in no set and the slot is back |
| `HubServer.Conn.EnqueueErr` | internal/server/connection.go:244-260 | queues while there is room, otherwise closes; an error means an open connection overflowed |
| `HubServer.HubObject.HandleSubscribe` | internal/server/connection.go:126-130 | records the session, then enters the set: the connection is a subscriber under that session, the first one is reported, and hub and connections still agree |
| `HubServer.HubObject.HandleSync` | internal/server/connection.go:153-157 | records a session only where none is and enters no set |
| `HubServer.HubObject.Deregister` | internal/server/hub.go:74-96 | takes the connection out of exactly the recorded documents, reports the emptied ones, gives the slot back; afterwards it is in no set and every slot is accounted for |
| `HubServer.HubObject.LeaveAll` | internal/server/hub.go:74-88 | the loop over the recorded documents removes the connection, drops emptied sets and reports exactly those |
| `HubServer.HubObject.Broadcast` | internal/server/hub.go:119-134 | every subscriber but the author's session is offered the message once, each closed one deciding for itself; nobody else is touched |
| `Cluster.PublishedAtMostOnce` | internal/cluster/node.go:134-154 | through any deletes and node deaths: every publish is a committed op by its committer, no op is published twice, receiving publishes nothing, one node's publishes in one life of a document ascend |
| `Cluster.OwnOpsHandedExactlyOnce` | internal/cluster/node.go:134-137 | the committing node hands each of its ops to its hub exactly once, ascending per life of the document |
| `Cluster.RemoteOpsHandedAtMostOnce` | internal/cluster/node.go:241-266 | every other node hands an op to its hub at most once, unchanged, never its own, one committer's in ascending order |
| `Cluster.OpTravels` | internal/cluster/node.go:134-174 | from every reachable state an op committed on one node can reach the hub of any node with another id, as it was committed |
| `Cluster.ReachedOnlyWhileListening` | internal/cluster/node.go:158-174 | a publish can reach a node that has started listening on the document's channel, and none that has stopped |
| `Cluster.FilterIsExact` | internal/cluster/node.go:253-263 | a message reaches the hub if and only if the ids of committer and receiver differ; with distinct ids that is exactly the other nodes' ops |
| `ClusterServer.NodeObject.ReceiveLoop` | internal/cluster/node.go:241-266 | the hub is handed, in order, exactly the messages that decode and carry another id; nothing is published |
| `ClusterServer.LoopIsRepeatedReceive` | internal/cluster/node.go:241-266 | the loop hands over what repeating the protocol's receive step does, in the same order |
| `ClusterServer.ReceiveInto` | internal/cluster/node.go:241-266 | from the bus to the subscribers: every connection of the node that stays open has been queued, in order and once each, exactly the other nodes' messages of its documents that its recorded session did not author |
| `Auth.KeyIsInjective` | internal/auth/webhook.go:66-69 | without NUL in the tokens, a cache key determines token and document |
| `Auth.KeysCollideExactlyWhen` | internal/auth/webhook.go:66-69 | two tokens can share a key if and only if one followed by NUL is a prefix of the other |
| `Auth.WebhookAuth.Lookup` | internal/auth/webhook.go:123-137 | a hit exactly while the entry has not expired; an expired entry is dropped |
| `Auth.WebhookAuth.Authenticate` | internal/auth/webhook.go:66-119 | on a miss a request is let in if and only if the reply is a 200 that decodes and allows it, under that identity, and a 200 that does not decode is an error; on a hit the cached verdict stands; refusals and grants are kept for one TTL, transport errors and undecodable bodies are not |
| `Auth.CachedDecisionWasGiven` | internal/auth/webhook.go:66-146 | in every concurrent run, a decision served from the cache is one the endpoint gave for the same token and document, stored at most one TTL before; never a transport error |
| `Auth.CacheLetsInOnlyTheGranted` | internal/auth/webhook.go:66-146 | in every concurrent run, whoever is let in from the cache was let in by a 200 reply that allowed that token for that document under that identity, and whoever is turned away was refused |
| `Auth.RepliesDecide` | internal/auth/webhook.go:87-119 | which replies grant, refuse or fail, and which are kept |
| `Auth.CacheNeedsTtl` | internal/auth/webhook.go:123-146 | without a positive TTL every request reaches the endpoint |
| `Auth.ServedLaterThanTtl` | internal/auth/webhook.go:139-146 | a run in which a decision is served later than one TTL after the endpoint gave it |
| `Auth.AgeIsWithinExactlyWhen` | internal/auth/webhook.go:66-146 | over all runs whose stores lag at most `lag` behind the answers: everything served was given at most `bound` before if and only if TTL plus lag is within the bound; so one TTL suffices if and only if the lag is zero |
| `Auth.PromptStoresKeepTheTtl` | internal/auth/webhook.go:66-146 | in every run whose decisions are stored at the instant they are given, whatever is served was given at most one TTL before |
| `Auth.LateStoreIsServedLate` | internal/auth/webhook.go:139-146 | whenever a decision is stored later than it was given, some continuation serves it more than one TTL after the answer |
| `Locks.HandlersAreDisciplined` | internal/server/hub.go:74-134 | every handler, the cluster's receive loop and the closing loops take their locks in one global order and give all back |
| `Locks.NoDeadlock` | internal/sync/engine.go:109-142 | for any number of handlers, in every reachable state with an unfinished one some goroutine can run |

## Left out

- Automerge itself: change dependencies, heads, out-of-order queuing and the byte formats; a merge fails or succeeds by the payload alone, and whether the resolver is consulted is a parameter.
- JSON and base64 encoding, HMAC signing, and the SQL, Redis and WebSocket libraries.
- The HTTP calls of resolver, authorization endpoint and event dispatcher; only their outcomes occur. The webhook retry loop adds easy bounds only.
- Configuration, logging, metrics, CORS, schema migration, health checks, node registry and heartbeat, and the REST handlers other than delete.
- Timestamps, document metadata, listing documents, and `GetOpsInRange`.
- Pings, pongs and write deadlines: closing may happen at any time instead. A close that blocks inside the WebSocket library is not modelled.
- Updated, connected, disconnected and deleted events in the concurrent protocol; the engine object reports created, updated and resolver errors, without user ids.
- Several documents at once in the engine protocol and the fan-out: everything they share is keyed by document, and other documents' frames appear in a connection's queue as frames of no interest. The engine object and the stores hold many documents.
- An append error after which the row was committed nevertheless: an error means that nothing was committed.
- Int64 overflow of sequence numbers.
- ClusterServer.ReceiveInto: subscribes and teardowns between two messages of the stretch; each stretch between them is covered.
- A subscribe or sync with an empty document id, which is answered with an error and changes nothing.
- Equality between a node's set of bus channels and its hub's documents: the notifications are sent outside the hub lock and may be reordered.
- EngineCache.CacheAgreesWithLog: one node per document, no loadable resolver reply, and deletes that no request spans, because it bounds the document from above too; `EngineDelete` proves containment without the last two, `EngineNodes` without the first.
- EngineDurability.NothingAnnouncedBeforeDurable: a delete crosses no submit between commit and ack and no manual snapshot that has read a positive length, since their numbers belong to the old life.
- System.AckedOpIsKeptAndDelivered: one node and one life of the document; deletes are not part of the joint system.
- EngineServer.Engine.Submit: one call at a time; interleaving is the protocol's, to which `EngineRefinement.SubmitIsARun` ties it.
- Cluster.PublishedAtMostOnce: a node has one broadcast at a time per life of a document, which a drop of the cached document in the middle of a submit can break.
- Deletes on several nodes at once: another node's cached document outlives the delete.
- Locks.NoDeadlock: locks only; no store call, network write or endpoint is assumed to return.
