# Verified models of dcrlnd

This project models six parts of dcrlnd, a Lightning node, and proves what they promise:

* **Betweenness centrality** (`autopilot/betweenness_centrality.go`, `autopilot/simple_graph.go`): the breadth-first
  search and the reverse pass of Brandes' algorithm agree with a definition by counting shortest paths, over every
  multigraph. Parallel channels are different paths. The concurrent `Refresh` gives the same result for every
  schedule of its workers.
* **The peer registry** (`server.go`): every critical section is a step on the maps guarded by the server mutex. An
  invariant holds over every run until shutdown, and two such servers, each in the middle of whatever else it is
  doing, settle on the same connection exactly under a condition on how the smaller key dialled.
* **The batch scheduler** (`batch/`): any number of concurrent callers, timers, batches and solo re-runs. Every run is
  serializable, comes to rest once no new requests arrive, and then has answered every request truthfully. A request
  is committed, fails or has to leave its batch exactly if the run has a step that is a cause for it. Cache updates follow the commits exactly when a lock is supplied.
* **AMP shares** (`amp/`): over every run of a shard tracker the shares in flight and the current share together give
  the root, and the receiver recomputes all children exactly when the current share is used up. Then every preimage
  it derives settles the hash that the sender gave out.
* **The aezeed seed** (`aezeed/`): the regrouping of bytes as words is a bijection that keeps the number they spell, and seeds survive the way to a
  mnemonic, back, and through a change of passphrase.
* **The autopilot agent** (`autopilot/agent.go`, `choice.go`, `agent_constraints.go`): budget, weighted choice, and the
  controller interleaved with its directives.

Code that updates slices, maps or fields in place is modelled by methods and classes whose contracts tie the new
state to a function of the old one and keep the invariant that the theorems over whole runs are about. `BetweennessCentrality`,
`RegistryServer`, `TimeScheduler`, `TrackerObject` and `AutopilotAgent` are these classes.

## Layout

| files | part |
|---|---|
| `Bytes`, `Options`, `Sums` | bytes and keys, optional values, finite sums and counting |
| `ShortestPaths`, `Dependencies`, `Search`, `Centrality`, `SimpleGraphs`, `Metric`, `Undirected`, `OneEnded` | betweenness centrality |
| `Registry`, `Channels`, `Backoff`, `Server`, `ServerOutcomes`, `TwoServers`, `PeerServer` | peer registry |
| `Batch`, `Scheduler`, `SchedulerProofs`, `SchedulerOutcomes`, `SchedulerProgress`, `SchedulerObject` | batch scheduler |
| `Amp`, `ShardTracker` | AMP shares |
| `BitStream`, `Mnemonics`, `CipherSeed` | aezeed seed |
| `Choice`, `Budget`, `Agent`, `AgentLimits`, `AgentRecords`, `AgentOverrun`, `AgentFunds`, `AgentObject` | autopilot agent |

## Where the code does not do what one would expect

* `TwoServers.AgreementIff`: the tie-break between simultaneous connections gives agreement in every interleaving
  if and only if the node with the smaller key dialled once, and directly. A connection that was dialled for a
  connection request is closed when an inbound connection has cancelled that request (`server.go:3270-3275`), and then
  both servers can end up without any connection to each other (`TwoServers.RequestedDialCanFail`). So they can when
  the smaller key dials twice, because each server may close the link that the other holds
  (`TwoServers.SecondDialCanFail`).
* `SchedulerProofs.OrderIffLocker`: without a lock a batch that commits second can run its `OnCommit` closures first.
* `ShardTracker.NewShardConserves`: `NewShard` with an attempt identifier that is still tracked loses the share it
  overwrites; the root is conserved exactly when that share is zero. `ShardTracker.ReissueLoses` is a run in which the
  sender believes the payment complete and its receiver computes a wrong root.
* `AgentOverrun.LimitIff`: `mergeChanState` is documented to keep the agent below its channel limit. Nodes that are
  still connecting are not counted, so the limit is kept over every run only by agents that can never open a channel
  (`AgentOverrun.Overrun` is the run that exceeds it, for any nodes that are one more than the limit).
  It is kept over every run in which slots are handed out only while no directive is connecting
  (`AgentLimits.QuietRunsKeepLimit`), and one step keeps it exactly under that condition (`AgentLimits.StepRoom`).
* `AgentFunds.AllocationIff`: the same comment promises the limit on allocated funds. It is kept over every run
  exactly when two channels of the smallest size are more than the total funds, when there is no room for the first, or
  when all funds are allocated; `AgentFunds.Overspent` is the run that exceeds it otherwise.
* `AgentLimits.StepClean`: a channel that somebody else opens to a node the agent is working on lets the agent open a
  second one to it. `AgentOverrun.DuplicateChannel` is such a run.
* `Agent.StaysStranded`: a directive whose key does not parse leaves its node in `pendingConns` for good, and
  `AgentOverrun.UnparsableStrands` shows how it gets there.
* `Choice.ChosenPositive`: a draw of exactly 0 picks the first node even if its weight is 0, and
  `Choice.ZeroDrawStalls`: once that node is chosen such a draw changes nothing, so that a stream of them never ends
  `chooseN`.
* `OneEnded.HalvedTooMuch`: halving is right for channels that are listed at both ends. The iteration of the channel
  graph leaves out a channel at an end without outgoing policy (`autopilot/graph.go:94-103`), and then it is not.
* `CipherSeed.ChangePassForgetsSalt`: `decode` does not restore the salt, so a changed mnemonic always carries the
  zero salt.
* `Backoff.ComputeNextBackoff` follows the code, which discards the number drawn by `rand.Int` and adds the whole
  margin.

## Model

| member | source | states |
|---|---|---|
| `ShortestPaths.PathsCompose` | autopilot/betweenness_centrality.go:101-104 | paths of a + b hops, counted by the node they are at after a hops, are the products of the two halves: the reference definition that the search is measured against |
| `ShortestPaths.ThroughCount` | autopilot/betweenness_centrality.go:145-148 | the shortest paths that visit v are the shortest paths to v times the paths of the remaining length from v |
| `Search.Explore` | autopilot/betweenness_centrality.go:97-143 | at exit `dist` is the true hop distance or -1, `sigma` the number of shortest paths with channel multiplicity, `pred` lists exactly the last hops with multiplicity, the stack holds every reachable node once by non-decreasing distance |
| `Search.FollowAll` | autopilot/betweenness_centrality.go:124-142 | the inner loop follows every channel of the popped node and keeps the search invariant |
| `Search.Follow` | autopilot/betweenness_centrality.go:128-142 | following one channel discovers its end, then counts and records it if it is one hop farther |
| `Search.SigmaComplete` | autopilot/betweenness_centrality.go:136-141 | once all predecessors are listed, their path counts add up to the path count of the node |
| `Search.UndiscoveredFar` | autopilot/betweenness_centrality.go:123-134 | a node not yet discovered is at least as far away as the first unfinished one, for any cut of the graph |
| `Search.QueueEmpty` | autopilot/betweenness_centrality.go:123-143 | with an empty queue the loop invariant is the full result of the search |
| `Dependencies.PairFormula` | autopilot/betweenness_centrality.go:145-149 | the share of shortest paths through v by path counts on either side of v |
| `Dependencies.PairRecurrence` | autopilot/betweenness_centrality.go:155-160 | one target's share of v is what the successors of v pass back for that target |
| `Dependencies.Recurrence` | autopilot/betweenness_centrality.go:151-160 | Brandes' theorem: the dependency defined by path counting equals the sum of what the successors of v in the shortest-path graph pass back |
| `Dependencies.SourceDependency` | autopilot/betweenness_centrality.go:145-167 | the path-counting dependency of the source on itself is the number of other nodes it reaches |
| `Dependencies.TotalDependency` | autopilot/betweenness_centrality.go:145-167 | the path-counting dependencies on all nodes add up to the distances from the source |
| `Centrality.DependencyPopped` | autopilot/betweenness_centrality.go:151-160 | when a node is popped, everything that contributes to its delta has been popped before |
| `Centrality.PassBack` | autopilot/betweenness_centrality.go:155-160 | the loop over the predecessor list adds one share per listed occurrence and changes nothing else |
| `Centrality.PopNext` | autopilot/betweenness_centrality.go:151-160 | the popped node's delta is its true dependency, and the rest of delta stays the sum over popped nodes |
| `Centrality.PopAll` | autopilot/betweenness_centrality.go:151-167 | when the stack is empty, delta holds the path-counting dependency on every node, reachable or not, and every popped node but the source has been credited |
| `Centrality.DeltaTotals` | autopilot/betweenness_centrality.go:145-149 | at the end the source's own delta is the number of other nodes it reaches, and all deltas together are the sum of the distances |
| `Centrality.ReversePass` | autopilot/betweenness_centrality.go:145-167 | every popped node but the source is credited its dependency exactly once |
| `Centrality.AddDependencies` | autopilot/betweenness_centrality.go:96-168 | each entry grows by the path-counting dependency of the source on that node, the source's own entry is unchanged |
| `SimpleGraphs.NewSimpleGraph` | autopilot/simple_graph.go:16-66 | nil exactly on iteration failure, otherwise a faithful re-indexing: indices in range, keys in order of first meeting, lists the in-order image of the peers |
| `SimpleGraphs.NodeIndex` | autopilot/simple_graph.go:25-36 | a known key gets its old index, a new one the next, and the index map stays the inverse of the order of keys |
| `SimpleGraphs.ListPeers` | autopilot/simple_graph.go:40-49 | visiting a node appends the image of its peers to its list and to no other |
| `SimpleGraphs.Fill` | autopilot/simple_graph.go:54-63 | the slices hold, at every index, the key and the list of that index |
| `SimpleGraphs.FirstsOnce` | autopilot/simple_graph.go:25-36 | indices are a bijection with the keys met |
| `SimpleGraphs.PeersOfOnce` | autopilot/simple_graph.go:40-49 | a node that is visited once has exactly the peers of that visit |
| `SimpleGraphs.PeersOfUnvisited` | autopilot/simple_graph.go:60-63 | a node met only as a peer has an empty list |
| `Metric.NewBetweennessCentralityMetric` | autopilot/betweenness_centrality.go:75-83 | fails exactly for fewer than one worker, otherwise gives a valid empty metric |
| `Metric.AnySchedule` | autopilot/betweenness_centrality.go:184-206 | however the nodes are dealt to the workers, the partial results add up to the sum over all sources |
| `Metric.AnyArrival` | autopilot/betweenness_centrality.go:212-218 | the order in which partial results arrive does not matter |
| `Metric.Work` | autopilot/betweenness_centrality.go:184-206 | each worker's partial result is the sum over the nodes it consumed |
| `Metric.Collect` | autopilot/betweenness_centrality.go:212-218 | the collected values are the schedule-independent scores |
| `Metric.MinMax` | autopilot/betweenness_centrality.go:220-233 | the minimum is 0, the maximum bounds all values and is attained when positive |
| `Metric.BetweennessCentrality.Refresh` | autopilot/betweenness_centrality.go:171-245 | for every schedule and arrival order, half the sum over all sources is stored for exactly the nodes of the graph; a failing iteration changes nothing |
| `Metric.BetweennessCentrality.GetMetric` | autopilot/betweenness_centrality.go:249-265 | plain values, or values in [0,1] in proportion to the plain ones, with some node at 1 when the maximum is positive and all at 0 when it is not |
| `Metric.UnitInterval` | autopilot/betweenness_centrality.go:250-262 | scaling by the inverse of the maximum maps [0, max] to [0,1] and undoes by multiplication |
| `Undirected.PathsReverse` | autopilot/betweenness_centrality.go:235-243 | with channels listed at both ends, there are as many paths there as back |
| `Undirected.HalvedScore` | autopilot/betweenness_centrality.go:235-243 | on a symmetric graph, half the score is the sum over unordered pairs of the shares of shortest paths through the node |
| `Undirected.FaithfulSymmetric` | autopilot/simple_graph.go:40-63 | the graph built from an iteration that lists every channel at both ends is symmetric |
| `Undirected.RefreshedBetweenness` | autopilot/betweenness_centrality.go:235-243 | for every iteration that lists each channel at both ends, what Refresh stores is the betweenness centrality of the channel graph |
| `OneEnded.HalvedTooMuch` | autopilot/graph.go:90-116 | three nodes in a row, each channel listed at one end: Refresh stores 1/2 for the middle node, whose betweenness is 1 |
| `Registry.GreaterTotal` | server.go:3146-3154 | of two different keys exactly one is greater |
| `Registry.DropLocalIff` | server.go:3146-3154 | the local connection is dropped exactly when the remote key comes first in the order of bytes: at the first difference it has the smaller byte, or it ends there |
| `Registry.BeforeIsStrict` | server.go:3146-3154 | of two keys at most one comes first, so both ends drop the same connection |
| `Registry.AdmitKeeps` | server.go:3201-3239 | whatever the tie-break decides, the peer maps stay consistent |
| `Registry.WatcherOwns` | server.go:3705-3726 | the peer that a watcher removes is its own, never a different peer of the same key |
| `Registry.WatcherKeeps` | server.go:3705-3726 | a watcher that finishes, with or without a scheduled connection, keeps the peer maps consistent |
| `Registry.DisplaceKeeps` | server.go:3228-3238 | removing the connected peer in favour of a scheduled connection keeps the peer maps consistent |
| `Channels.ReleaseKeeps` | server.go:3694-3701 | all and only the listeners of the key are closed, each for the first time |
| `Channels.CancelKeeps` | server.go:3363-3369 | the retry channel is closed for the first time and forgotten |
| `Channels.EnsureKeeps` | server.go:3792-3798 | a new retry channel is open and shared with nobody |
| `Channels.NotifyKeeps` | server.go:3033-3056 | the channel handed out is closed at once or stored for a connected key |
| `Backoff.NextInRange` | server.go:3098-3138 | the next backoff is computable and lies between the minimum and the maximum plus a twentieth, from any stored value in that range |
| `Backoff.MarginMonotone` | server.go:4208-4230 | the wiggle of computeNextBackoff grows with the backoff, which is what bounds it by the wiggle at the maximum |
| `Backoff.NextIsNext` | server.go:3098-3138 | the next backoff is the minimum for a new peer; otherwise the previous one doubled, capped, and a twentieth on top unless no random number could be drawn, less the time that a peer lasted beyond ten minutes, down to the minimum |
| `Server.StepKeeps` | server.go:3160-3348 | every critical section keeps the whole registry invariant |
| `Server.InboundKeeps` | server.go:3160-3239 | an inbound connection, refused, displacing or admitted, keeps the invariant |
| `Server.OutboundKeeps` | server.go:3244-3349 | so does an outbound one, including a cancelled request |
| `Server.TerminateKeeps` | server.go:3652-3822 | so does a termination watcher, with its notifications and its retry |
| `Server.PruneKeeps` | server.go:2922-2941 | so does pruning |
| `Server.DisconnectKeeps` | server.go:4077-4108 | so does disconnecting |
| `Server.RunKeeps` | server.go:3160-3348 | the invariant holds after every sequence of critical sections |
| `Server.EveryRun` | server.go:3547-3572 | over every run: peersByPub is the disjoint union of the two directions; ignored peers are those with a scheduled connection, whose key is not connected; one watcher per key, which evicts its own peer and no other; stored channels are open and no channel is closed twice; every offline channel closed or watched; backoffs only for persistent peers and in range |
| `Server.WatcherNeverStuck` | server.go:3788-3790 | in no reachable state does drawing the backoff fail on its precondition |
| `ServerOutcomes.InboundOutcome` | server.go:3160-3239 | an inbound connection is closed without further effect if the node is connected inbound or scheduled, or if it is connected outbound and the local key comes first; it is connected and watched if the node is new; otherwise it waits for the watcher of the connection it replaces, whose link is closed. Requests and retries of the node are off exactly if it is not refused |
| `ServerOutcomes.OutboundOutcome` | server.go:3244-3349 | likewise for an outbound connection, which is also closed when its request is no longer pending, and refused only after the requests have been cancelled |
| `ServerOutcomes.TerminateOutcome` | server.go:3705-3822 | the waiting connection takes over from a displaced peer, any other is gone and its link closed; an undisplaced persistent peer that can be found has its next backoff and an open canceller, and nobody else is retried |
| `ServerOutcomes.DisconnectOutcome` | server.go:4077-4108 | the link is closed, the node is no longer persistent, has no backoff, and its requests and retries are off |
| `ServerOutcomes.PruneOutcome` | server.go:2922-2941 | a permanent peer is untouched, any other is gone with its backoff, requests and retries |
| `ServerOutcomes.ConnectPermOutcome` | server.go:3975-4024 | nothing changes for a connected node; otherwise it is permanent, keeps a known backoff or starts at the minimum, and has one request more |
| `ServerOutcomes.NewChannelOutcome` | server.go:1266-1284 | a channel makes its peer persistent without undoing a request for permanence |
| `ServerOutcomes.RetryConnectOutcome` | server.go:3848-3904 | a retry replaces the pending requests of the node and has an open canceller |
| `ServerOutcomes.AddRequestOutcome` | server.go:3900-3902 | a further request is added to those of the node, and nothing else changes |
| `ServerOutcomes.MarkOutcome` | server.go:2853-2861 | marking a peer as persistent keeps a known backoff and does not make the peer permanent |
| `TwoServers.Agreement` | server.go:3146-3154 | two servers in any states in which they do not know each other, where the key of one comes before that of the other in the order of bytes, with any other steps of either in between and retries scheduled or not: for one direct dial by the smaller key its link is never closed, and at rest both servers hold it |
| `TwoServers.RunBounded` | server.go:3201-3238 | the two take at most twelve steps with each other before they are at rest, or eighteen with a third link, whatever else they do |
| `TwoServers.RequestedDialCanFail` | server.go:3270-3275 | from every such pair of states, a run after which neither server is connected to the other |
| `TwoServers.SecondDialCanFail` | server.go:3256-3269 | from every such pair of states, a run with two direct dials by the smaller key after which neither server is connected to the other |
| `TwoServers.AgreementIff` | server.go:3265-3348 | from every such pair of states, agreement in every interleaving if and only if the smaller key dials once and its dial carries no connection request |
| `TwoServers.StepForeign` | server.go:3160-3348 | a critical section that is about another node changes nothing that the registry says about this one |
| `PeerServer.RegistryServer.constructor` | server.go:581-595 | the empty registry, which meets the invariant |
| `PeerServer.RegistryServer.InboundPeerConnected` | server.go:3160-3239 | updating the maps in place takes the step, with the outcome of ServerOutcomes.InboundOutcome, and keeps the invariant; the connection ends up closed, held by a peer or scheduled |
| `PeerServer.RegistryServer.OutboundPeerConnected` | server.go:3244-3349 | likewise, with the outcome of ServerOutcomes.OutboundOutcome and the cancellation before the tie-break |
| `PeerServer.RegistryServer.FinalizeConnection` | server.go:3545-3581 | creating a peer, adding it and starting its watcher takes the step on the peer maps |
| `PeerServer.RegistryServer.Remove` | server.go:3923-3968 | removePeer takes the step on the peer maps |
| `PeerServer.RegistryServer.CancelRequests` | server.go:3363-3400 | cancelConnReqs takes the step on channels and requests |
| `PeerServer.RegistryServer.PeerTerminationWatcher` | server.go:3652-3822 | for every outstanding watcher: takes the step, with the outcome of ServerOutcomes.TerminateOutcome, keeps the invariant, can always draw its backoff, and has closed every channel handed out for the key |
| `PeerServer.RegistryServer.ReleaseListeners` | server.go:3694-3701 | the loop closes the listeners of the key one after the other and forgets them, as the step says |
| `PeerServer.RegistryServer.NotifyWhenOffline` | server.go:3033-3056 | takes the step and keeps the invariant; the channel returned is new, and closed exactly when the peer is not connected |
| `PeerServer.RegistryServer.Disconnect` | server.go:4077-4108 | takes the step, with the outcome of ServerOutcomes.DisconnectOutcome, and keeps the invariant; an error exactly when the peer is not connected, and then no change |
| `PeerServer.RegistryServer.PrunePersistentPeerConnection` | server.go:2922-2941 | takes the step, with the outcome of ServerOutcomes.PruneOutcome, and keeps the invariant |
| `Batch.Transact` | batch/batch.go:53-62 | the index of the first request whose update fails on top of those before it, or the state after applying all of them in order |
| `Batch.TransactionIff` | batch/batch.go:53-62 | a transaction commits a state exactly if it is reached by applying each request to what the one before it left, and fails at a request exactly if it is the first whose update fails there |
| `Batch.SwapRemoveMultiset` | batch/batch.go:74-80 | swap-remove takes out the failing request and no other |
| `Batch.SurvivorsApply` | batch/batch.go:50-86 | whatever is committed by others between the attempts, what is left after taking out failing requests time and again can be applied in the last transaction |
| `Batch.Run` | batch/batch.go:37-102 | every request gets exactly one message; those answered are the survivors, applied one after the other on the database of the last attempt or not at all; those told to run solo can fail and have left no trace |
| `SchedulerProofs.StepKeeps` | batch/scheduler.go:45-109 | every step of callers, timers, batches and solo re-runs keeps the invariant |
| `SchedulerProofs.EveryRun` | batch/scheduler.go:45-109 | over every interleaving: the database is what applying the committed requests one after the other gives, none twice; a call returns success exactly if its update is committed; a solo request has no effect from its batch; a waiting request is in the batch it joined; no request in two places; no batch starts twice; with a lock, reports follow commits and have caught up when it is free |
| `SchedulerOutcomes.SoloResult` | batch/scheduler.go:84-98 | a solo re-run whose commit does not fail is done successfully exactly if the update succeeds on the database as it is, which then is the result of that update; otherwise nothing has happened to it |
| `SchedulerOutcomes.StepSeals` | batch/batch.go:50-102 | a step makes a request committed, failed or without its batch exactly if it is a cause for that: an attempt in which the whole batch applies, one in which the request is the first to fail, or the request on its own |
| `SchedulerOutcomes.EveryFate` | batch/scheduler.go:45-98 | over every run, from its beginning: a request is in the history, fails or has left its batch if and only if the run has a step that is a cause for it |
| `SchedulerOutcomes.OnlyItsOwnFault` | batch/scheduler.go:71-98 | over every run without a commit failure, a call that returned an error was alone in its transaction in some state of the run, and its own update failed on the database of that state |
| `SchedulerProgress.StepDrops` | batch/scheduler.go:45-109 | every step but a new request and a spent trigger brings the scheduler closer to rest |
| `SchedulerProgress.RunDrains` | batch/batch.go:31-102 | while no new request arrives, the number of steps that change something is bounded |
| `SchedulerProgress.AtRestAllReturned` | batch/scheduler.go:71-98 | no deadlock: when nothing can change any more, every call of Execute has returned |
| `SchedulerProgress.EveryRunAnswers` | batch/scheduler.go:45-98 | over every run that has come to rest, every request has been answered, with success exactly if it is in the database; the run has a step that committed it, or one in which it failed |
| `SchedulerProofs.JoinsOpenBatch` | batch/scheduler.go:51-61 | a request joins exactly one batch, which has not been cleared |
| `SchedulerProofs.ReorderedWithoutLock` | batch/batch.go:42-48 | a run without lock in which the second commit is reported first |
| `SchedulerProofs.OrderIffLocker` | batch/batch.go:42-98 | reports follow the order of the commits in every run if and only if a lock is supplied |
| `SchedulerObject.TimeScheduler.Execute` | batch/scheduler.go:51-69 | the critical section of Execute is always possible for a new request, takes the step and keeps the invariant: the request is in a batch that has not been cleared |
| `SchedulerObject.TimeScheduler.Trigger` | batch/batch.go:31-33 | takes the step and keeps the invariant; only the first trigger of a batch starts it |
| `SchedulerObject.TimeScheduler.Clear` | batch/scheduler.go:103-109 | takes the step and keeps the invariant; no later request joins the batch |
| `Amp.XorInto` | amp/child.go:16-21 | the loop writes the byte-wise exclusive or, also when slices are shared |
| `Amp.XorLaws` | amp/child.go:16-21 | the shares are a commutative group in which every element is its own inverse |
| `Amp.DerivedIff` | amp/child.go:60-92 | DeriveChild gives the one child whose preimage is the hash of 68 bytes, the root, the share and the index with its high byte first, and whose hash is the hash of that preimage |
| `Amp.EncodesOnce` | amp/child.go:72-80 | those 68 bytes determine root, share and index, and are determined by them |
| `Amp.AnyListing` | amp/sharer.go:149-154 | the shares of the tracked shards give the same sum in every order |
| `Amp.SplitConserves` | amp/sharer.go:97-188 | the two halves of a split give the current share, and keep the root |
| `Amp.MergeIntoZero` | amp/sharer.go:116-142 | merging a sharer's child into its zero sharer gives the sharer back |
| `ShardTracker.NewShardTakes` | amp/shard_tracker.go:87-133 | NewShard fails, changing nothing, exactly without randomness or with nothing left to split; otherwise the share comes out of the current one, all of it for the last shard, and the child that belongs to it and to the drawn index is tracked |
| `ShardTracker.NewShardConserves` | amp/shard_tracker.go:87-133 | the root is conserved if and only if no nonzero tracked share is overwritten |
| `ShardTracker.ReissueLoses` | amp/shard_tracker.go:120-121 | for every nonzero root, a run of two shards with one identifier after which the sender is done and the sum of what the receiver gets is not the root |
| `ShardTracker.CancelConserves` | amp/shard_tracker.go:136-150 | cancelling returns the share to the current one and keeps everything else |
| `ShardTracker.RunConserves` | amp/shard_tracker.go:87-150 | conservation and derivation over every run that does not reuse tracked identifiers |
| `ShardTracker.ReconstructChildren` | amp/sharer.go:149-164 | position by position, the children that belong to the descriptors and the exclusive or of all shares, as in Amp.DerivedIff |
| `ShardTracker.Reconstruction` | amp/sharer.go:149-164 | the receiver recomputes the true root if and only if the tracker's current share is zero, and then exactly the tracked children |
| `ShardTracker.EveryRun` | amp/shard_tracker.go:87-150 | sender and receiver together, over every run and every order of the shards: the receiver has the root exactly if the current share is zero, and then the preimages it rebuilds hash to what the sender gave out for each shard |
| `ShardTracker.TrackerObject.constructor` | amp/shard_tracker.go:67-81 | a new tracker holds the root as its current share and meets the invariant |
| `ShardTracker.TrackerObject.NewShard` | amp/shard_tracker.go:87-133 | takes the step, with the outcome of ShardTracker.NewShardTakes, is untouched on failure, keeps every child derived from the root, and conserves the root exactly if no nonzero tracked share is overwritten |
| `ShardTracker.TrackerObject.CancelShard` | amp/shard_tracker.go:136-150 | takes the step and keeps the invariant; an unknown identifier is an error and changes nothing |
| `ShardTracker.TrackerObject.GetHash` | amp/shard_tracker.go:154-165 | the hash of the tracked child, which belongs to the root; an error for an unknown identifier |
| `BitStream.RegroupInverse` | aezeed/cipherseed.go:339-358 | regrouping numbers of one width as numbers of another and back is the identity, for all widths with the same total |
| `BitStream.RegroupNumber` | aezeed/cipherseed.go:339-358 | regrouping changes the digits and not the number they spell, most significant first, for all widths with the same total |
| `Mnemonics.BuildReverseWordMap` | aezeed/wordlist.go:12-17 | the map is defined on exactly the words, and gives the last index of each |
| `Mnemonics.RegroupBijection` | aezeed/cipherseed.go:339-358 | 33 bytes and 24 indices of 11 bits correspond one to one |
| `Mnemonics.IndicesIff` | aezeed/cipherseed.go:339-358 | the indices are the digits in base 2048 of the number whose digits in base 256 are the bytes, and no others are |
| `Mnemonics.CipherTextToMnemonic` | aezeed/cipherseed.go:339-358 | the i-th word is the word of the i-th 11-bit group, the i-th digit of the number that the bytes spell; reading never runs off the stream |
| `Mnemonics.MnemonicToCipherText` | aezeed/cipherseed.go:401-421 | the bytes spell the number whose digits in base 2048 are the indices, with 0 for an unknown word |
| `Mnemonics.SpelledBack` | aezeed/cipherseed.go:401-421 | words to bytes undoes bytes to words, and only known words are written |
| `Mnemonics.SpelledForth` | aezeed/cipherseed.go:339-358 | bytes to words undoes words to bytes, for known words |
| `CipherSeed.DecodeEncode` | aezeed/cipherseed.go:218-252 | decoding undoes encoding up to the salt |
| `CipherSeed.EncodeDecode` | aezeed/cipherseed.go:218-252 | encoding undoes decoding |
| `CipherSeed.EncodeIff` | aezeed/cipherseed.go:218-234 | the plain text is the version byte, the birthday with its high byte first, and the entropy, and nothing else is |
| `CipherSeed.EncipheredParts` | aezeed/cipherseed.go:256-335 | where version, cipher text, salt and checksum are found in the enciphered seed, and that extractAD recovers the associated data |
| `CipherSeed.EncipheredIff` | aezeed/cipherseed.go:280-335 | exactly one array of 33 bytes has version 0, the plain text encrypted under the key of the passphrase, or of "aezeed" if it is empty, with version and salt as associated data, the salt, and last the checksum of all this with its high byte first; encipher gives it |
| `CipherSeed.Encipher` | aezeed/cipherseed.go:280-335 | filling the buffer step by step gives the enciphered seed, as CipherSeed.EncipheredIff describes it |
| `CipherSeed.DecipherEncipher` | aezeed/cipherseed.go:448-498 | deciphering under the same passphrase succeeds and gives the encoded seed |
| `CipherSeed.DecipheredIs` | aezeed/cipherseed.go:448-498 | a wrong version is reported exactly if byte 0 is not 0, a wrong mnemonic exactly if the version is right and the last four bytes, as a number, are not the checksum of the others, a wrong passphrase exactly if both are right and decryption with the salt in the text fails |
| `CipherSeed.MnemonicRoundTrip` | aezeed/cipherseed.go:363-374 | the mnemonic of a seed leads back to its version, birthday and entropy |
| `CipherSeed.EmptyPassphrase` | aezeed/cipherseed.go:283-288 | a mnemonic made without passphrase opens under "aezeed" and the other way round, to its version, birthday and entropy |
| `CipherSeed.ChangePassPreserves` | aezeed/cipherseed.go:544-557 | the changed mnemonic opens, under the new passphrase, to what the old one opened to |
| `CipherSeed.ChangePassForgetsSalt` | aezeed/cipherseed.go:544-557 | the salt bytes of every changed mnemonic are zero |
| `CipherSeed.ChangePassDetermined` | aezeed/cipherseed.go:237-252 | so the changed mnemonic is determined by the new passphrase and version, birthday and entropy alone |
| `CipherSeed.MakeMnemonic` | aezeed/cipherseed.go:363-374 | ToMnemonic spells the enciphered seed |
| `CipherSeed.DecipherMnemonic` | aezeed/cipherseed.go:503-538 | the first unknown word is reported, with its index, before anything else; otherwise the outcome is that of CipherSeed.DecipheredIs for the bytes that the words spell |
| `CipherSeed.OpensIs` | aezeed/cipherseed.go:503-538 | every mnemonic has an unknown word or spells some bytes, so the outcome is fixed for all of them |
| `CipherSeed.MakeCipherSeed` | aezeed/cipherseed.go:427-443 | ToCipherSeed gives the version, birthday and entropy of the plain text that Decipher gives, or its error |
| `CipherSeed.ChangePassphrase` | aezeed/cipherseed.go:544-557 | fails exactly when the old passphrase does not open the mnemonic, with that error |
| `Choice.WeightedChoice` | autopilot/choice.go:15-47 | for any weights: the index whose interval of the running sums the scaled draw hits, no positive weights exactly when the sum is not positive, and never the error at the end |
| `Choice.AlwaysHits` | autopilot/choice.go:38-46 | with a positive sum some interval is hit, whatever the signs of the weights |
| `Choice.ChosenPositive` | autopilot/choice.go:38-44 | the chosen weight is positive if and only if it is not the case that the draw is 0 and the first weight is 0 |
| `Choice.ZeroDrawStalls` | autopilot/choice.go:69-84 | a draw of 0 while the first score is 0 chooses the first node and leaves scores and, the second time, the choice unchanged |
| `Choice.ChooseN` | autopilot/choice.go:51-87 | the loop ends if draws other than 0 keep coming; at most one chosen node lacks a positive score, and none if no draw is 0; fewer than n are chosen only when no positive score is left, and none at all when there was none |
| `Choice.ChosenCount` | autopilot/choice.go:49-51 | exactly min(n, number of positive scores) nodes, when no draw is 0 |
| `Budget.ChannelBudget` | autopilot/agent_constraints.go:85-127 | a positive number of slots exactly when the limit, the funds and the allocation leave room; then channels and slots make up the limit, and the amount is the largest whole one within the allocation |
| `Budget.BuildDirectives` | autopilot/agent.go:553-678 | an error exactly when no channel can be afforded; otherwise distinct chosen nodes, sizes within the limits, the sum within the funds, every channel but the last of full size, and an early stop only when the rest is too small |
| `Budget.PlanRound` | autopilot/agent.go:523-541 | one round: directives and channels together stay within the channel limit and within allocation times total funds, only nodes of positive score are chosen if no draw is 0, and exactly when there are no directives or too few of them is said |
| `Agent.StepKeeps` | autopilot/agent.go:694-848 | every critical section of controller and directives keeps the invariant |
| `Agent.EveryRun` | autopilot/agent.go:575-593 | over every interleaving: pendingConns and pendingOpens are disjoint, at most one directive per node before its pending open, pending opens within their cap (so the 16-bit length is exact) and backed by a call under way, and candidates free until dispatched |
| `Agent.StrandedBy` | autopilot/agent.go:732-737 | in one step, entries of pendingConns outlive their directive exactly through keys that do not parse |
| `Agent.StaysStranded` | autopilot/agent.go:581-593 | a stranded node stays so over every continuation, and is skipped in every choice |
| `AgentLimits.StepClean` | autopilot/agent.go:359-378 | a step keeps the agent away from nodes it has a channel with or that failed, if and only if nobody else opens a channel to a node it is working on |
| `AgentLimits.NoDuplicates` | autopilot/agent.go:355-378 | over every undisturbed run the agent works neither on a node it has a channel with nor on one recorded as failed |
| `AgentRecords.FailedIff` | autopilot/agent.go:773-848 | over every run a node is recorded as failed if and only if a connection to it or a channel with it failed at some point |
| `AgentRecords.NeverAgain` | autopilot/agent.go:581-593 | after a failed connection or a failed open, for every continuation: the node is recorded as failed and skipped, and no plan that can be chosen has it |
| `AgentRecords.ChannelIff` | autopilot/agent.go:435-463 | over every run the agent has a channel if and only if it started with it or was told of it, and has not been told of its end since |
| `AgentRecords.NothingTwice` | autopilot/agent.go:355-378 | over every undisturbed run the agent works on no node that failed it at some point and on none that it was told of a channel with, and not of its end |
| `AgentLimits.StepRoom` | autopilot/agent.go:510-541 | a step keeps everything that may become a channel below the limit if and only if it does not hand out slots while a directive is connecting |
| `AgentLimits.QuietRunsKeepLimit` | autopilot/agent.go:380-395 | the channel limit holds over every run whose slots are handed out in that way |
| `AgentOverrun.Overrun` | autopilot/agent.go:868-873 | for any parsable nodes that are one more than the limit, a run of an agent with positive limit and cap that gives each of them a channel |
| `AgentOverrun.LimitIff` | autopilot/agent.go:380-395 | given more parsable keys than the limit, the channel limit holds over every run if and only if the limit or the cap is zero |
| `AgentOverrun.DuplicateChannel` | autopilot/agent.go:791-834 | a run in which somebody else opens a channel to the node being connected to and the agent opens a second one |
| `AgentOverrun.UnparsableStrands` | autopilot/agent.go:732-737 | for every key that does not parse, a run that strands its node for every continuation |
| `AgentFunds.DirectivesPlanned` | autopilot/agent.go:654-678 | the directives built in a round are a possible round of the ledger |
| `AgentFunds.TargetIsAllocation` | autopilot/agent_constraints.go:124-125 | staying within the whole-numbered target is staying within allocation times total funds |
| `AgentFunds.MoveAccounts` | autopilot/agent.go:694-848 | a round commits what it plans, an open moves its amount into a channel, a drop frees it, and closing takes out exactly what the channel held |
| `AgentFunds.QuietRunsKeepAllocation` | autopilot/agent.go:380-395 | the allocation holds over every run that plans only while no directive is connecting |
| `AgentFunds.Overspent` | autopilot/agent.go:523-541 | unless confined, a run from within the allocation that exceeds it: two rounds plan the same funds |
| `AgentFunds.AllocationIff` | autopilot/agent.go:380-395 | from every start within the allocation no run exceeds it, if and only if two smallest channels exceed the total funds, none fits, or all funds are allocated |
| `AgentObject.AutopilotAgent.constructor` | autopilot/agent.go:177-198 | a new agent knows the given channels, works on nothing and meets the invariant |
| `AgentObject.AutopilotAgent.TallyChannels` | autopilot/agent.go:513-536 | takes the step and keeps the invariant; channels and slots make up the limit |
| `AgentObject.AutopilotAgent.DispatchCandidates` | autopilot/agent.go:694-720 | takes the step and keeps the invariant; all candidates are launched unless the cap is reached |
| `AgentObject.AutopilotAgent.FailConnection` | autopilot/agent.go:773-789 | is possible for every directive under way, takes the step and keeps the invariant; the node is recorded as failed and no longer as connecting |
| `AgentObject.AutopilotAgent.MakeConnection` | autopilot/agent.go:796-834 | takes the step and keeps the invariant; a channel is opened exactly when the cap is not reached |
| `AgentObject.AutopilotAgent.FailOpen` | autopilot/agent.go:838-848 | is possible for every call under way, takes the step and keeps the invariant; the node is recorded as failed and no longer as pending |
| `AgentObject.AutopilotAgent.OpenChan` | autopilot/agent.go:435-449 | takes the step and keeps the invariant; the channel is known and its node no longer pending |
| `AgentObject.AutopilotAgent.CloseChans` | autopilot/agent.go:452-463 | the loop removes all closed channels and no others, and keeps the invariant |

## Left out

- Choice.ChooseN: assumes that draws other than exactly 0 keep coming; Choice.ZeroDrawStalls says why. Scores are not negative, as the heuristics promise.
- Budget.PlanRound: takes scores and draws as inputs and inherits these assumptions from Choice.ChooseN.
- Registry invariants are about runs before `stopping` is set; several methods skip their cleanup on purpose after that.
- Addresses, the connection manager, peerErrors, customMessageServer and NotifyWhenOnline of server.go: connection requests are numbers, dial attempts are events.
- connectToPersistentPeer and the address merge of peerTerminationWatcher: their effect on the connection requests is an event, their address comparison is not modelled. This event and ConnectToPeer are steps on values only.
- Overflow of durations: backoffs are unbounded integers, for a configuration with 10ns <= MinBackoff <= MaxBackoff.
- Metric.BetweennessCentrality.Refresh: workers own their partial results, so their interleaving is represented by who consumes which node and by the order of arrival; the channels between them are not modelled.
- IEEE rounding: scores, weights, centrality and fund fractions are reals, so that zero total funds are the case in which the fraction is not a number.
- Retrying kvdb backends: one attempt per transaction, after one call of Reset.
- Batch.Run: the error values of OnCommit closures are not modelled, only what they are told. What others commit between two attempts is a parameter here and a matter of steps in the state machine.
- SHA-256, scrypt, aez, CRC-32C and secp256k1: functions of which only sizes and, for aez, the inverse law are used.
- MPP and AMP records of a shard, String methods and logging: they would only add easy members.
- The contents of the word list of BIP 39: it is any list of 2048 different words.
- New and BirthdayTime of aezeed: easy.
- AgentOverrun.LimitIff: counts channels; amounts are treated in AgentFunds. Which keys parse is a parameter.
- AgentFunds.AllocationIff: total funds are constant, so fees and deposits are not modelled, and neither is the limit on the number of channels, which AgentOverrun.LimitIff is about.
- Undirected.RefreshedBetweenness: is about iterations that list every channel at both ends; OneEnded.HalvedTooMuch shows what happens otherwise.
- TwoServers.Agreement: the dials of retries that watchers schedule are not part of the system; they are further dials, for which TwoServers.AgreementIff says what can happen.
- DisconnectPeer calls of executeDirective, the address lists of directives and the heuristics that score nodes.
- combinedattach, prefattach, top_centrality, externalscoreattach, manager: scoring and wiring that would only add easy members.
- brontide, rpcserver.go, lnd.go, config.go and the other packages of the repository.
