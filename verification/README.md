# Omnipaxos-kv in Dafny

A model of the replicated key-value store, with proofs of what it promises its callers. The consensus library
is not part of this model: in its place stands one append-only log, of which it is assumed only that

- an entry is decided at most once, and only after it was appended;
- each server knows a prefix of that log, which never shrinks, and which any call of the library may extend;
- reading the decided suffix from index `i` returns exactly the entries from `i` on, all of them decided.

Links are first-in first-out and may stop delivering at any time. Ids and counters are unbounded, timestamps
are opaque, and what comes from clocks, sockets and the scheduler is a parameter or a nondeterministic step.

How the modules follow the program:

| module | part of the program |
|---|---|
| `KV`, `Snapshots`, `SnapshotLaws` | commands, the database object, the snapshot object, and when the two agree |
| `Replicas`, `Servers` | what one server does, first as functions on values, then as an object that does it in place |
| `Networks` | the server's connections: start-up loop, sending, the loop that feeds a client's socket |
| `Clients` | the benchmark client, its event loop and its request bookkeeping |
| `Cluster`, `ClusterSafety`, `ClusterTheorems` | all servers and clients as one state machine, its invariant, and theorems over whole runs |
| `ClusterContinuations` | how any run can go on until a request is answered |
| `ServerSteps`, `ServerLives` | the server object's turns, and its whole life, as sequences of steps of that machine |
| `Gateway`, `GatewaySafety`, `GatewayOutcomes` | the HTTP gateway as a state machine of handlers, reader and writer, what every run keeps, and what each handler ends with |
| `Joint` | the cluster and any number of gateways as one state machine |
| `EndToEnd` | what an HTTP caller is told, over runs of that machine |
| `Mesh`, `MeshSafety`, `MeshTheorems` | start-up of the whole cluster: who dials whom, what every run keeps |
| `MeshLoops`, `MeshContinuations` | its main loops as the start-up loop of `Networks`; how every run can go on, and which clients get lost |
| `ClusterConfigs` | validation of benchmark configurations |
| `Seqs`, `Sets` | flattening sequences and sizes of subsets, used above |

The class `OmniPaxos` stands for the consensus library and has the assumed contracts as its own. The objects
(`Database`, `KVSnapshot`, `Network`, `OmniPaxosServer`, `ClientData`, `Client`, `AppState`) change their
fields in place. Each method's contract equates the new state with a function of the old one, the state
machines take their steps with the same functions, and the lemmas prove what these functions promise.
`BatchIsSteps`, `RequestsAreSteps` and `TickIsStep` show that every turn of the server object is a sequence of
steps of the cluster, and `LifeIsInRun` that its whole life, from start-up on and whatever happens elsewhere,
is part of a run of the cluster.

## Where the code does not do what one might expect

- Merging two created snapshots need not give the snapshot of both batches: a key put in the first batch, then
  put and deleted in the second, comes back to life (`MergeCanResurrect`). `MergeOfCreates`, `MergeIsReplay`
  and `IncrementalIsReplay` say exactly when this happens. The fold never loses a key.
- A merge forgets its own tombstones, so merging is associative only under the exact condition of
  `MergeAssociativity`; it fails for a put, a delete and an empty batch (`AssociativityFails`).
- If more clients register with a server than `num_clients`, start-up may end with a client that never gets a
  start signal (`IdsExactIffNotTooMany`); such a benchmark client waits forever (`StartBarrier`).
- A client too many may also find the start-up loop gone: its connection is then lost for good (`LostForGood`).
  A node can lose a client exactly if more register than it needs (`LosesIffTooMany`).
- The start-up loop looks at its exit condition only after an arrival, so a server with no peers and no
  clients to wait for does not leave it (`InitializeConnections`, with no arrivals).
- A server notices newly decided entries only when it handles an Omnipaxos message. What a tick or an append
  teaches it stays unapplied, and unanswered, until the next such message (`LifeIsExact`, `ATickLeavesBehind`).
- The gateway's request timeout does not cover the queue to its writer task: while that queue is full and the
  writer stuck, a request waits without limit (`StuckExactlyIfBlocked`, `AHandlerCanBeBlocked`).
- A gateway whose reader has stopped never reconnects: requests that come later are still accepted and sent, and
  can only time out (`LostConnectionMeansTimeout`).
- When its last interval ends the benchmark client stops at once, however many requests are unanswered
  (`LastIntervalEnds`).
- Configuration validation looks up a client's own key among the servers, not the server it names
  (`StrayClientIsAccepted`); `EveryClientHasAServer` gives the exact condition. Its messages say that a quorum
  "must be greater than 2" while the check accepts 2; the model follows the check.

## Model

| member | source | states |
|---|---|---|
| `KV.Database.HandleCommand` | src/server/database.rs:13-25 | Each command's effect on the store and its result, in place |
| `KV.LastWriterWins` | src/server/database.rs:13-25 | Replaying any log leaves each key at what its last write put there, and an unwritten key as it was |
| `Snapshots.KVSnapshot.Create` | src/common.rs:77-100 | The loop over a batch, with tombstones pushed only when a delete finds nothing and those put back removed |
| `Snapshots.KVSnapshot.Merge` | src/common.rs:102-110 | Both loops, for every iteration order of the delta's map; the result depends on the tombstones only as a set |
| `SnapshotLaws.CreateCorrect` | src/common.rs:77-100 | Live keys equal replay from empty; a key is a tombstone exactly if it ends absent and some delete met it absent; the two never overlap |
| `SnapshotLaws.MaskedLeavesNoTrace` | src/common.rs:85-90 | A written key is neither live nor a tombstone exactly if its writes form (Put+ Delete)+ |
| `SnapshotLaws.MergeAtKey` | src/common.rs:102-110 | Key by key: merge gives the replayed value, except that a masked key, which replay deletes, keeps the base's value |
| `SnapshotLaws.MergeIsReplay` | src/common.rs:77-110 | Merging a batch into any base equals replaying it there if and only if no key live in the base is masked |
| `SnapshotLaws.MergeOfCreates` | src/common.rs:77-110 | For all batches, the exact condition for merge of creates to equal replay, and to equal the whole snapshot of both batches |
| `SnapshotLaws.MergeCanResurrect` | src/common.rs:85-109 | A concrete pair of batches for which the unconditional law fails |
| `SnapshotLaws.MergeAllAtKey` | src/common.rs:77-110 | After any split into batches, from the pattern of writes alone: the fold holds a key exactly if some batch ends by putting it and every later batch is silent on it or masks it; it disagrees with the log exactly if one of those later batches masks it |
| `SnapshotLaws.IncrementalIsReplay` | src/common.rs:77-110 | For every split of a log into batches, folding snapshots equals the database exactly if the writes resurrect no key; the fold never loses a key |
| `SnapshotLaws.OneCommandBatchesAreSafe` | src/common.rs:77-110 | Snapshotting after every command always agrees with the database |
| `SnapshotLaws.LoopOrderIsInvisible` | src/common.rs:102-110 | The order of the two merge loops matters exactly if the delta's live keys and tombstones overlap; a merge never returns an overlap |
| `SnapshotLaws.MergeAssociativity` | src/common.rs:102-110 | When the second snapshot's live keys and tombstones are disjoint, merge is associative if and only if no live key of the first is tombstoned later and absent from the merge of the other two |
| `SnapshotLaws.AssociativityFails` | src/common.rs:77-110 | Snapshots the code creates for which merging is not associative |
| `Replicas.PositionsAreRight` | src/server/server.rs:135-147 | The positions owed an answer are exactly, in order and once each, those coordinated here for that client |
| `Replicas.ExecuteKeepsPromises` | src/server/server.rs:135-147 | Applying more of the log keeps the database equal to replay, each client answered exactly for its commands, and start signals untouched |
| `Replicas.ChunkIndependence` | src/server/server.rs:114-147 | Any way of cutting the decided log gives the same database and the same messages in the same order |
| `Replicas.StartSignalsReachEachOnce` | src/server/server.rs:213-219 | The start-signal loop reaches each client 1..n once and nobody else |
| `Servers.OmniPaxosServer.HandleDecidedEntries` | src/server/server.rs:114-133 | Applies exactly the decided entries not applied yet, and moves the index there |
| `Servers.OmniPaxosServer.UpdateDatabaseAndRespond` | src/server/server.rs:135-147 | Applies the commands in order, handing a reply only for those coordinated here |
| `Servers.OmniPaxosServer.AppendToLog` | src/server/server.rs:193-203 | Proposes the client's command under this coordinator; whatever is learned meanwhile is left for later |
| `Servers.OmniPaxosServer.HandleClientMessages` | src/server/server.rs:159-168 | Proposes one command for each message, in order, and applies nothing |
| `Servers.OmniPaxosServer.HandleClusterMessages` | src/server/server.rs:170-191 | The state after a batch is that of its messages one by one; true is returned exactly if a start signal was among them |
| `Servers.OmniPaxosServer.SendClusterStartSignals` | src/server/server.rs:205-211 | Each peer is sent one start signal with the given time |
| `Servers.OmniPaxosServer.SendClientStartSignals` | src/server/server.rs:213-219 | Clients 1..num_clients are handed the start signal in order |
| `Servers.OmniPaxosServer.EstablishInitialLeader` | src/server/server.rs:79-112 | The designated leader starts at the first tick at which it leads and is in the accept phase, telling every peer and its configured clients the time two seconds later; otherwise the first batch with a start signal ends the loop, its times handed to the clients; nothing else ends it or tells anybody anything; state and proposals are those of the events handled |
| `Servers.OmniPaxosServer.HandleStartupEvent` | src/server/server.rs:86-110 | What one tick or batch does to state, proposals, peers and clients; it ends the loop exactly if the designated leader finds itself established or a batch holds a start signal |
| `Servers.WhatStarts` | src/server/server.rs:87-106 | Which events start the experiment, and exactly what they announce to clients and tell peers |
| `Servers.OmniPaxosServer.EventLoop` | src/server/server.rs:60-73 | The main event loop: every tick and batch acts as specified, in order, and tells peers no start time |
| `Servers.OmniPaxosServer.Run` | src/server/server.rs:50-74 | For any events: start-up takes those up to the first that announces a start time, the main loop the rest; only that one event tells peers, clients are handed exactly the times announced; the database is the replay of what was applied, clients were answered exactly that, and the applied index is behind by exactly the lag of the events |
| `Servers.BatchSignals` | src/server/server.rs:170-191 | Over any batch, clients 1..n are handed the batch's start times in order, others none, whatever replies lie between |
| `Servers.BatchesCatchUp` | src/server/server.rs:170-191 | However messages are batched and interleaved, a batch with an Omnipaxos message leaves everything known applied and answered exactly, any other leaves the server as far behind as it was |
| `Servers.LifeIsExact` | src/server/server.rs:50-191 | Over a server's whole life: it is behind by exactly what ticks and appends taught it since the last Omnipaxos message, so up to date if and only if that is nothing |
| `Servers.LifeAnnounces` | src/server/server.rs:79-219 | Over its whole life a server hands its configured clients exactly the start times it announces, in order, and others none |
| `Servers.ATickLeavesBehind` | src/server/server.rs:87-99 | A tick that teaches the leader an entry leaves it decided and unapplied |
| `Networks.Network.InitializeConnections` | src/server/network.rs:88-118 | Slots and clients hold exactly what arrived; the loop ends after the first arrival that completes them, or never |
| `Networks.Network.Register` | src/server/network.rs:100-110 | One arrival fills its peer's slot or adds its client, and changes nothing else |
| `Networks.Network.AllConnected` | src/server/network.rs:111-113 | The exit condition: every peer slot filled and enough clients arrived |
| `Networks.Network.SendToClient` | src/server/network.rs:260-270 | An open channel gets the message, a closed one is forgotten, an unknown client gets nothing; a channel never holds more than a prefix of what was handed over |
| `Networks.Network.SendToCluster` | src/server/network.rs:245-258 | Only the addressed peer's channel changes, and is dropped if closed |
| `Networks.WriteToClient` | src/server/network.rs:399-416 | For any batching and any point of failure the socket is fed a prefix of what the client's channel accepted: all that was taken if nothing failed, short of at most one batch otherwise, and everything if the loop goes on |
| `Networks.ExitIsFirst` | src/server/network.rs:99-117 | Start-up ends with the first arrival that completes it, so at most once |
| `Networks.ExitIdsAreExact` | src/server/network.rs:99-117 | If no more clients register than configured, start-up can end only with ids exactly 1..n, in any arrival order |
| `Networks.OneClientTooMany` | src/server/network.rs:99-117 | With more, some arrival order ends start-up with an id above n connected |
| `Networks.IdsExactIffNotTooMany` | src/server/network.rs:88-118 | Whenever start-up ends it ends with exactly the clients the start-signal loop covers, if and only if no more register |
| `Networks.EndsIffEnough` | src/server/network.rs:88-118 | Once everybody has arrived, start-up has ended exactly if somebody arrived at all and enough clients did |
| `Networks.StartupIsRight` | src/server/network.rs:88-118 | Start-up ends, and with exactly the clients 1..n, in every arrival order, if and only if exactly n register and there is any peer or client |
| `Clients.ClientData.NewRequest` | src/client/data_collection.rs:30-37 | Appends one unanswered entry with this time and kind |
| `Clients.ClientData.NewResponse` | src/client/data_collection.rs:39-43 | The entry of that id gets this response time, keeps the rest, all others stay; the count goes up by one |
| `Clients.Client.SendRequest` | src/client/client.rs:119-130 | The id is the number of requests recorded before; key and value are the decimal numeral of the id; one entry with this time and kind is added |
| `Clients.DecimalIsNumeral` | src/client/client.rs:120 | The decimal form of a number reads as that number and has no leading zero |
| `Clients.KeysDiffer` | src/client/client.rs:119-125 | Different requests use different keys |
| `Clients.Client.Run` | src/client/client.rs:39-106 | Nothing is sent without a start signal or without intervals; then one request per request tick, numbered from 0, until as many intervals are over as configured; what happened until then is recorded and nothing after |
| `Clients.Client.HandleServerMessage` | src/client/client.rs:108-117 | A reply sets the response time of its id's entry alone and is counted; a further start signal changes nothing |
| `Clients.Client.RunFinished` | src/client/client.rs:132-139 | On any client that kept its invariant: finished exactly once the final count is set; the comparison of counts never decides, and responses play no part |
| `Clients.Client.LastIntervalEnds` | src/client/client.rs:88-93 | The run is finished at once when the last interval ends |
| `ClusterSafety.ReplyIdsAreRequests` | src/server/server.rs:135-147 | Each reply handed to a client answers the log entry of one request it sent and its server took in |
| `ClusterSafety.ReplyIdsDiffer` | src/client/client.rs:119-130 | No two replies to a benchmark client carry the same id |
| `ClusterSafety.FirstDeliveryIsStart` | src/client/client.rs:39-47 | A client that has sent nothing is handed nothing but start signals |
| `ClusterSafety.DeliverOk` | src/client/client.rs:108-117 | Any delivery leaves a benchmark client unpanicked and its bookkeeping right |
| `ClusterSafety.StepKeepsInv` | src/server/server.rs:50-219 | Every step of clients, servers and log keeps the whole invariant |
| `ClusterTheorems.RunInv` | src/server/server.rs:50-219 | The invariant holds in every state of every run |
| `ClusterTheorems.RunGrows` | src/server/server.rs:114-147 | Over any run nothing appended, decided, sent, handed over or received is taken back |
| `ClusterTheorems.ReplicasAgree` | src/server/server.rs:114-147 | In every reachable state each database is the replay of the global log up to that server's index |
| `ClusterTheorems.RepliesExactlyOnceInOrder` | src/server/server.rs:135-147 | A client's replies are exactly the applied commands with this coordinator and client, once each, in log order, with sequential results |
| `ClusterTheorems.Linearizable` | src/server/server.rs:114-203 | Over every run: each reply handed over is the sequential result at the log position of the client's own request, and any message not yet appended then is decided later in the log |
| `ClusterTheorems.ClientsSeeOrder` | src/server/server.rs:114-203 | The same as clients see it: what is sent after a reply was received is decided after it |
| `ClusterTheorems.StartBarrier` | src/client/client.rs:39-47 | A benchmark client's first message is a start signal, it never gets two, it never panics, and an unconfigured id gets nothing at all |
| `ClusterTheorems.AtMostOneSignal` | src/server/server.rs:213-219 | No client of any server is ever handed two start signals, and none outside the configured ids is handed one |
| `ClusterTheorems.OneStartTime` | src/server/server.rs:79-112 | All start signals in the cluster carry the one time the leader chose |
| `ClusterTheorems.NextReplyIsInRange` | src/client/data_collection.rs:39-43 | The next reply always indexes a recorded request that is still unanswered |
| `ClusterTheorems.ResponseCountIsRight` | src/client/data_collection.rs:45-51 | The response count equals the number of answered requests and never exceeds the request count |
| `ClusterTheorems.RequestsAreRecorded` | src/client/data_collection.rs:30-37 | In every run each recorded request was sent at the recorded time, as the recorded kind, under its own number |
| `ClusterTheorems.ResponseTimeIsRight` | src/client/data_collection.rs:39-43 | The response time of an answered request is the time at which the reply with its id was delivered |
| `ClusterTheorems.FinishedForGood` | src/client/client.rs:88-105 | A client that has finished sends and records nothing any more |
| `ClusterContinuations.EveryRequestCanBeAnswered` | src/server/server.rs:114-203 | From every reachable state, any message a listening client has sent can still be taken in, decided, applied and answered with its sequential result |
| `ServerSteps.BatchIsSteps` | src/server/server.rs:170-191 | Handling any batch of cluster messages is a sequence of steps of the cluster that changes this server as its object does, takes its start signals off the link, and changes nothing else |
| `ServerSteps.TickIsStep` | src/server/server.rs:60-100 | A tick of either loop is the leader's start step or a learning step, and puts on each peer's link exactly what the object tells its peers |
| `ServerSteps.RequestsAreSteps` | src/server/server.rs:159-203 | Handling any batch of client messages takes in the clients' next messages and appends what the object proposes, in order |
| `ServerSteps.EventTeaches` | src/server/server.rs:60-108 | What a server knows after an event is what it knew and all that its calls of Omnipaxos taught it; in start-up only an unestablished designated leader calls it at a tick |
| `ServerSteps.RunGoesOn` | src/server/server.rs:50-74 | Such sequences continue any run, so what holds of every run holds after them |
| `ServerLives.LifeIsInRun` | src/server/server.rs:50-191 | A server's events in both loops, interleaved with anything elsewhere, make up a run of the cluster that ends with the server as its object left it, so long as what messages teach is decided, start signals are on the leader's link and requests were sent; that the leader starts at most once is proved, not assumed |
| `Gateway.AppState.FetchAdd` | src/gateway/main.rs:215-217 | Hands out the counter and raises it by one |
| `Gateway.AppState.InsertPending` | src/gateway/main.rs:218-220 | Registers a sender; one already under that id would be dropped |
| `Gateway.AppState.RemovePending` | src/gateway/main.rs:228-245 | Removes and drops the sender under that id, if any |
| `Gateway.AppState.ClearPending` | src/gateway/main.rs:170-171 | Empties the table, closing every channel that carries nothing |
| `Gateway.AppState.TakeSender` | src/gateway/main.rs:150-164 | Takes the sender waiting for a reply; start signals and unknown ids take nothing |
| `Gateway.AppState.ReaderTask` | src/gateway/main.rs:143-172 | Run alone, the reader gives each waiting handler the first reply to its id or a closed channel, and leaves the table empty |
| `GatewaySafety.StepKeepsInv` | src/gateway/main.rs:143-249 | Every interleaved step of handlers, reader and writer keeps the table, ids and channels consistent |
| `GatewaySafety.OneRightOutcome` | src/gateway/main.rs:211-249 | An outcome is final; a success is the first reply with the request's own id since it registered; 503 means the writer is gone, 500 that the reader is gone and no reply came |
| `GatewaySafety.NothingLeaks` | src/gateway/main.rs:211-249 | Pending ids are allocated ids of unfinished handlers, so a quiescent gateway has an empty table |
| `GatewaySafety.StuckExactlyIfBlocked` | src/gateway/main.rs:211-249 | In every reachable state an unfinished handler can move if and only if it is not waiting for room in a full queue to a living writer; only the writer unblocks it; own steps bring it nearer to its outcome and no other step sets it back |
| `GatewaySafety.AHandlerCanBeBlocked` | src/gateway/main.rs:66-70 | A run in which the queue of 1024 fills up and a handler is blocked in it, with no timeout running |
| `GatewayOutcomes.OutcomeFollows` | src/gateway/main.rs:222-248 | A reply in its channel is what a handler returns, whenever it gets to it; a closed channel and a writer gone before sending end as such |
| `GatewayOutcomes.StepDecides` | src/gateway/main.rs:143-172 | On an empty channel, the timeout, the reader handing over a reply, or the reader giving up settles the outcome |
| `GatewayOutcomes.OnlyEmptyTimesOut` | src/gateway/main.rs:235-247 | Only a handler whose channel was empty when it stopped waiting ends with a timeout |
| `GatewayOutcomes.CommandIsCallers` | src/gateway/main.rs:174-215 | A handler's command is the one its caller came with |
| `GatewayOutcomes.EveryOutcomeOccurs` | src/gateway/main.rs:211-249 | For every command and each of the four outcomes, a run that ends so |
| `GatewayOutcomes.LostConnectionMeansTimeout` | src/gateway/main.rs:170-172 | A request that starts waiting after the reader gave up can only time out |
| `Joint.StepKeepsInv` | src/gateway/main.rs:130-172 | With cluster and gateways taking any steps in any order, what is on a gateway's link is what its writer took from the queue, and the gateway has read exactly what the link delivered |
| `EndToEnd.SuccessIsReply` | src/gateway/main.rs:192-249 | A successful outcome is the received reply to this handler's own request, with its sequential result: a Read for a GET, a Write for a PUT or DELETE |
| `EndToEnd.SuccessIsSequential` | src/gateway/main.rs:174-249 | In every run of cluster and gateways, each successful HTTP answer is the sequential result of the caller's command at its log position; a GET always carries a value field, a PUT or DELETE never |
| `EndToEnd.HttpLinearizable` | src/gateway/main.rs:174-249 | In every such run, across any gateways: a request that succeeded before another arrives precedes it in the log at its sequential result, whatever the other is told, also if it times out and runs later |
| `EndToEnd.NewRequestsComeLater` | src/gateway/main.rs:211-249 | The command of a request that arrives later goes behind everything in the log |
| `EndToEnd.SuccessesInOrder` | src/gateway/main.rs:174-249 | If the other succeeds too, both get sequential results, in that order |
| `EndToEnd.RequestsRunAtMostOnce` | src/gateway/main.rs:211-249 | Whatever callers are told, each log entry of a gateway is the command of one handler that sent it, and no other entry has its id |
| `EndToEnd.UnavailableNeverRuns` | src/gateway/main.rs:222-233 | A request answered 503 never runs, not even later |
| `EndToEnd.AnswerFollows` | src/gateway/main.rs:174-249 | In every run of the whole system a reply that reached its handler becomes a successful answer with the sequential result; a closed channel is told as 500, a writer gone before sending as 503 |
| `EndToEnd.ErrorsAreFailures` | src/gateway/main.rs:222-247 | 503, 500 and 504 are told exactly for a missing writer, a closed channel and a timeout |
| `EndToEnd.ServerErrorMeansNoReply` | src/gateway/main.rs:237-243 | Whoever is told 500 was sent no reply before the reader gave up |
| `EndToEnd.OnlyEmptyTimesOut` | src/gateway/main.rs:235-247 | 504 is told only if the timeout struck on an empty channel |
| `EndToEnd.CommandIsCallers` | src/gateway/main.rs:174-215 | In every such run the command answered is the one the caller came with |
| `MeshSafety.StepKeepsInv` | src/server/network.rs:88-243 | Each pair is being dialled or has one link dialled by the higher id; slots and the bounded channels match the links; client ids are gapless and each client is in one place; a finished node is complete |
| `MeshTheorems.ConnectionStepsAreBounded` | src/server/network.rs:200-243 | In any run, connection steps made and steps remaining add up to seven per pair and one per node |
| `MeshTheorems.ClientTakesAreBounded` | src/server/network.rs:99-110 | A main loop has taken as many clients off its channel as it has connected, never more than registered |
| `MeshTheorems.ChannelsAreBounded` | src/server/network.rs:95-98 | No channel of new connections ever holds more than 30 |
| `MeshTheorems.NeverStuck` | src/server/network.rs:88-243 | While any node misses a peer, a connection step is enabled, or a main loop can take an arrival to make room in its full channel |
| `MeshLoops.MainLoopIsStartupLoop` | src/server/network.rs:88-118 | In every run each node's slots and clients are what its main loop received, and it is done exactly if the start-up loop ends with the last of these arrivals and not before |
| `MeshContinuations.MeshCanComplete` | src/server/network.rs:88-243 | Every run can go on until the mesh is complete, without any client doing anything |
| `MeshContinuations.EveryNodeCanFinish` | src/server/network.rs:88-243 | Every run can go on, with clients connecting, until every node is done |
| `MeshTheorems.FullMesh` | src/server/network.rs:200-243 | Once no peer is missing, each pair has exactly one link and both ends use it |
| `MeshTheorems.NoPeerConnectionIsLost` | src/server/network.rs:151-243 | No task that connects to a peer finds its node's main loop gone, and no peer is dropped with the channel |
| `MeshTheorems.DoneMeansConnected` | src/server/network.rs:99-117 | A finished node has all peers and enough clients; with no more registered than configured it has exactly the ids 1..n and loses none; any further one is lost or about to be |
| `MeshTheorems.LostForGood` | src/server/network.rs:99-117 | A client not connected when its node finishes never is |
| `MeshContinuations.ClientsCanBeLost` | src/server/network.rs:151-198 | For every configuration, node and number of clients from what the node needs: a run in which so many register, it ends with clients 1..need, and all others are lost |
| `MeshContinuations.LosesIffTooMany` | src/server/network.rs:99-198 | Some run in which m clients register loses one if and only if m exceeds what the node needs: what it is configured for, or one for a lone node configured for none |
| `ClusterConfigs.OverlapIsExact` | benchmarks/omnipaxos_configs.py:37-40 | The sum check passes if and only if every two quorums of these sizes meet, for node sets of any size |
| `ClusterConfigs.LastUpdateCounts` | benchmarks/omnipaxos_configs.py:73-77 | A chain of updates succeeds exactly if each new configuration is accepted, and leaves the settings of the last with servers and clients unchanged |
| `ClusterConfigs.FirstComplaint` | benchmarks/omnipaxos_configs.py:28-71 | A configuration is accepted exactly if none of the seven complaints holds of it; otherwise the error is the first that does, in the order of the source |
| `ClusterConfigs.QuorumsOverlap` | benchmarks/omnipaxos_configs.py:28-77 | Every configuration reached by updates from an accepted one has all read and write quorums of its servers meet |
| `ClusterConfigs.RefusedOnlyWithoutOverlap` | benchmarks/omnipaxos_configs.py:30-40 | A configuration otherwise in order is accepted exactly if both sizes are at least two and all quorums meet |
| `ClusterConfigs.EveryClientHasAServer` | benchmarks/omnipaxos_configs.py:42-60 | An accepted configuration gives each client a server exactly if the expected client counts add up to the number of clients |
| `ClusterConfigs.StrayClientIsAccepted` | benchmarks/omnipaxos_configs.py:42-60 | A concrete accepted configuration whose client names no existing server |

## Left out

- Networks.Network.Register: an arrival from a node that is no peer makes the source panic; it is excluded here.
- Clients.ClientData.NewResponse: an index past the recorded requests makes the source panic; `NextReplyIsInRange` proves that it never occurs.
- MeshContinuations.ClientsCanBeLost: what a lost client's socket still carries is not modelled.
- ServerSteps.RequestsAreSteps: what is learned while appending is a step by itself (`LearningIsStep`), after the log's own step that decides it.
- EndToEnd.HttpLinearizable: handlers are assumed to run to completion; a handler future dropped midway is not modelled.
- Omnipaxos internals (leader election, ballots, log synchronisation) and the messages that `send_outgoing_msgs` passes along: only the assumptions above are used.
- Whether any command is eventually decided or answered: nothing is assumed about the progress of the log or of a link.
- The writer loop between servers: after a failed feed it drops the rest of that batch and goes on, unlike the client's; no ordering of peer messages is claimed beyond the start signal's single message per link.
- TCP, framing, serialization, routing and JSON, logging and result files; a link is a queue and a timeout a nondeterministic step.
- The benchmark client's connection code (src/client/network.rs), the loading of configuration files, request pacing, and the cloud, SSH and plotting scripts.
- Server crash and recovery: storage is in memory and the program has no recovery.
- Connection failures during start-up, after a dial has succeeded: the source gives up on that pair.
