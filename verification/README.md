# A verified model of the distributed object store

The system is an object store: an HTTP front end cuts objects into content-addressed
chunks, places each chunk on a consistent-hash ring, writes and reads it with quorums,
read repair and hinted handoff, keeps metadata in two tables and a write-ahead log, and
carries a transport-free Raft state machine. This project models that core in Dafny and
proves what it guarantees. `dafny verify dfyconfig.toml` checks everything.

## What is proved

**Raft.** `RaftNode` holds each operation of the node as a function on values, and
`RaftMachine.Machine` the node as an object whose methods, with their loops, are proved
against those functions. `RaftCluster` is the transition system: start an election,
deliver one vote round trip (a request may come late or again; a grant is heard only for
the candidacy it was asked for and once per voter; the reply may be lost), append a client
command, one atomic AppendEntries round trip (the reply may be lost), configure peers,
boot a cluster of one.
`RaftHistory` and `RaftInvariance` keep a history of ballots, elections, per-term logs and
acknowledgements beside the run and show that every step keeps the invariant;
`RaftSafety` draws the theorems for all runs: election safety, log matching, leader
completeness (for any acknowledging set that meets every majority) and agreement of stored
entries. `RaftCommit` treats the commit index: match indexes are sound, the commit loop
picks the greatest committable index and what it commits is never lost, and a follower
takes over its leader's commit index even when that is lower. `RaftClient` treats client
appends, which commit at once, before replication: right afterwards nobody else holds the
entry, so it is on a majority only in a cluster of one; and what they commit is in the log
of every later leader exactly in clusters of one or two nodes, because there the leader
alone meets every majority. For every larger cluster a run is built in which a later leader
lacks the entry, and the first leader's commit index then falls. `RaftDelivery` shows what
is left to the callers: if a voter's grant may be heard again, election safety holds exactly
in clusters of at most three nodes, and a late append request cuts a follower's log. `RaftConvergence`
bounds the rounds after which a lagging follower catches up. Beside safety, `RaftElection`
says exactly when a vote is granted, that the comparison of logs is total, and that a
candidate with a log at least as far along as those of enough willing voters wins, from any
state of any run; `RaftValidity` that every entry of every log of every run was appended by a
client, with that client's command.

**Placement.** `HashRing`, `RingLaws` and `Placement`: the clockwise walk of `locate`
against its meaning, exactly when that loop ends, minimal disruption when a node leaves,
and that plans are independent of the order in which the hash map lists the members exactly
when virtual nodes of different members never collide.

**Replicated chunks.** `ServiceModel` states what each call of the chunk service may do
to the coordinator's disk, the peers and the hint queue, with every RPC free to be lost
before or after it takes effect. `ChunkService` is the service with its loops, proved
against those steps, on top of the chunk store, the membership and the hint file.
`ServiceLaws` proves the laws over whole runs: quorum reads see quorum writes, holders
never drop without deletes, every missed replica is covered by a hint, replay conserves
hints. A put counts the local write as an acknowledgement even when the coordinator is not
a target; exactly when that still leaves a write quorum of holders is proved in both
directions, with a put step that falls short wherever the condition fails. `Membership` says
who the members are in terms of the configuration, and when a first put with everybody up
succeeds and reaches every seed.

**Objects.** `Metadata`, `ObjectModel`, `ObjectSteps`, `ObjectSpec` and `ObjectServer`: over
any sequence of PUT, GET and DELETE, with RPCs, files, the log, metadata queries, row
statements and COMMIT failing at will, a 200 carries the body of the latest PUT that took
effect, and an absent key always answers 404. As long as the database works during a
request, a 404 means that the key is absent, and a PUT or DELETE took effect exactly when it
says so; otherwise the code can answer 404 for a live key, 500 for a PUT that took effect,
and 204 for a DELETE that deleted nothing, and the contracts say so. The code reads a
reference count that was not answered as zero, so garbage collection is safe exactly when the
count was answered (or the chunk is unused, or on no target): a DELETE touches no chunk that
a remaining row names, except chunks of the deleted object whose count was misread. Without
faults, and with quorums that fit the members, every answer is exactly the one a plain map
gives, and every chunk that no row names is on all its targets if an overwriting PUT left it
behind and on none otherwise. `ServerStart` draws this together for a server started from its
configuration.

**Storage parts.** `Lru` (the cache is exactly the most recent keys of its history),
`ChunkStore` (integrity under arbitrary damage, a plain map without it), `Sha256`
(streaming equals the definition in FIPS 180-4 sections 5.1.1 and 6.2.2, with the 64-bit
length wrapping as in the code), `Sha256Facts` (what its parts are: primes and their roots,
bits, padding and byte order) and `Sha256Vector` (the digest of "abc", round by round), `Wal`
(what a file cut at any byte replays to, and that a damaged one is refused), `Handoff`
(when the hint file gives back what was written), `Wire` (when decoding inverts encoding).

Modelling conventions. SHA-256 outside its own module and the ring's hash are parameters;
"collision-free" is stated where used (`Injective`, `CollisionFree`). A `World` or `Env`
parameter lists what a call can rely on (reachable addresses, writable files, a working
database); everything
else is decided nondeterministically, call by call. Strings and byte strings are
sequences, files are their contents.

Where code and documentation disagree the model follows the code. `docs/design-decisions.md`
line 17 and `docs/architecture.md` lines 42 and 50 say that plans use healthy nodes;
`src/storage/replication.cpp` line 41 uses all known nodes. The Raft module is described as
committing by majority (`docs/architecture.md` line 54); `src/cluster/raft.cpp` line 57 also
commits client commands immediately.

## Model

| member | source | states |
|---|---|---|
| `RaftNode.SpliceReplacesTail` | src/cluster/raft.cpp:45-48 | the resize-and-push loop turns the log into its first `prev` entries followed by exactly the entries sent, and leaves it alone when none are sent |
| `RaftNode.EntriesFromIsSuffix` | src/cluster/raft.cpp:81-84 | on an indexed log the collecting loop yields the suffix from the next index |
| `RaftNode.CommitSearch` | src/cluster/raft.cpp:104-113 | the commit loop returns the greatest index above the commit index that a strict majority stores and that carries the current term, or keeps the old one |
| `RaftMachine.Machine.StartElection` | src/cluster/raft.cpp:11-19 | the new state and request are those of the election function |
| `RaftMachine.Machine.RequestVote` | src/cluster/raft.cpp:21-32 | new state and reply for stale, equal and higher terms, used votes and unfresh logs |
| `RaftMachine.Machine.ObserveVote` | src/cluster/raft.cpp:61-74 | stepping down, counting, winning and resetting the index maps |
| `RaftMachine.Machine.AppendEntries` | src/cluster/raft.cpp:34-51 | rejections, the overwritten vote, the spliced log and the commit index that may go down |
| `RaftMachine.Machine.AppendClientCommand` | src/cluster/raft.cpp:53-59 | only a leader appends; the entry returned and logged carries the command and is committed at once |
| `RaftMachine.Machine.MakeAppendEntries` | src/cluster/raft.cpp:76-86 | the request for a follower, including followers never configured |
| `RaftMachine.Machine.CountReplicas` | src/cluster/raft.cpp:105-108 | the counting loop gives one plus the number of peers matched up to the index |
| `RaftMachine.Machine.ObserveAppendResponse` | src/cluster/raft.cpp:88-114 | the state after a reply, and that after a success the new commit index is the choice a greatest-index specification makes |
| `RaftMachine.Machine.ConfigureCluster` | src/cluster/raft.cpp:116-121 | every listed peer gets next index last + 1 and match index 0, others keep theirs |
| `RaftMachine.Machine.BecomeLeaderForSingleNode` | src/cluster/raft.cpp:123-127 | a self-election with a cluster size of one |
| `RaftElection.GrantedExactly` | src/cluster/raft.cpp:21-32 | a vote is granted if and only if it is free in that term and the candidate's log is at least as far along, by last term and then by length; and what every field of the voter becomes |
| `RaftElection.StandingAsks` | src/cluster/raft.cpp:11-19 | standing means a new term, one's own vote and a request that names one's own log |
| `RaftElection.OneGrants` | src/cluster/raft.cpp:129-133 | of any two nodes whose votes are free, at least one grants the other's request |
| `RaftElection.OwnLogGranted` | src/cluster/raft.cpp:129-133 | a candidate with the voter's own log is granted its free vote |
| `RaftElection.VoteBinds` | src/cluster/raft.cpp:28-31 | after a grant the same candidate is granted again in that term and every other one is refused |
| `RaftElection.FollowerIsBound` | src/cluster/raft.cpp:36-40 | a follower that has heard from a leader of a term grants nobody else a vote in it |
| `RaftElection.LaterTermStepsDown` | src/cluster/raft.cpp:61-67 | any reply of a later term makes a node a follower of that term with a free vote |
| `RaftElection.EarlierTermRefused` | src/cluster/raft.cpp:22-35 | requests of an earlier term are refused with the later term and change nothing |
| `RaftElection.NewLeaderProbes` | src/cluster/raft.cpp:70-85 | a new leader's first request to any peer carries no entries and asks about its last one |
| `RaftElection.ConfiguredPeers` | src/cluster/raft.cpp:116-121 | listed peers start at the end of the log with nothing matched, the others keep their marks |
| `RaftElection.AloneLeads` | src/cluster/raft.cpp:123-127 | a single node becomes leader of the next term with its log kept |
| `RaftElection.Campaign` | src/cluster/raft.cpp:21-74 | in any run, a candidate whose log is at least as far along as those of willing voters wins once they make up a majority with it, one vote at a time; logs stay and nobody else is touched |
| `RaftElection.Lead` | src/cluster/raft.cpp:11-74 | from any state of any run a node as late in term and as far along as enough voters can be made leader of the next term |
| `RaftValidity.ClientAppends` | src/cluster/raft.cpp:53-59 | a client step on a leader adds exactly one entry, with the command, the next index and the leader's term, and changes nothing else; on another node it changes nothing |
| `RaftValidity.EntriesComeFromClients` | src/cluster/raft.cpp:34-59 | in every run, every entry of every log was appended by an earlier client step, at the same position, by the leader of its term, with that client's command |
| `RaftCluster.SentEntries` | src/cluster/raft.cpp:76-86 | what a leader sends is its log from the previous index on, with that index's term |
| `RaftCluster.AcceptedLog` | src/cluster/raft.cpp:41-49 | the log of a follower after a request built from some sender's log: kept on rejection, the shared prefix plus the sender's tail on acceptance |
| `RaftHistory.InitInv` | src/cluster/raft.cpp:9-9 | the initial cluster satisfies the invariant with an empty history |
| `RaftHistory.ElectKeeps` | src/cluster/raft.cpp:11-19 | starting an election keeps the invariant and only extends history |
| `RaftHistory.ClientKeeps` | src/cluster/raft.cpp:53-59 | a client append keeps the invariant |
| `RaftHistory.ElectedKeeps` | src/cluster/raft.cpp:69-73 | a candidate with a majority of recorded ballots becoming leader keeps the invariant; no other leader of the term exists |
| `RaftHistory.AcceptKeeps` | src/cluster/raft.cpp:45-50 | a follower adopting the leader's log keeps the invariant, including acknowledgements given earlier |
| `RaftInvariance.AppendOutcome` | src/cluster/raft.cpp:34-51 | with matching logs a request is rejected or leaves the follower agreeing with the leader up to the leader's last index |
| `RaftInvariance.RequestVoteKeeps` | src/cluster/raft.cpp:21-32 | a vote request keeps the invariant although `append_entries` overwrites votes |
| `RaftInvariance.VoteKeeps` | src/cluster/raft.cpp:21-32 | a whole vote round trip keeps the invariant, reply heard or lost |
| `RaftInvariance.ReplicateKeeps` | src/cluster/raft.cpp:34-51 | a whole AppendEntries round trip keeps the invariant, reply heard or lost |
| `RaftInvariance.StepKeeps` | src/cluster/raft.cpp:11-127 | every step of the transition system keeps the invariant, extends history, and adds only acknowledgements that the new state witnesses |
| `RaftSafety.RunHistory` | src/cluster/raft.cpp:11-127 | every run has one history that explains all its states and invents no acknowledgement |
| `RaftSafety.ElectionSafety` | src/cluster/raft.cpp:11-74 | two leaders of the same term, at any moments of any run, are the same node |
| `RaftSafety.LogMatching` | src/cluster/raft.cpp:34-86 | in every reachable state entry i has index i + 1, terms are sorted and bounded by the node's term, commit index is within the log; any two logs of a run with the same term at an index agree on the whole prefix |
| `RaftSafety.ElectedWith` | src/cluster/raft.cpp:129-133 | an entry acknowledged in its term by a set that meets every majority is in the log of every later election winner at election time |
| `RaftSafety.FresherHas` | src/cluster/raft.cpp:129-133 | a log at least as fresh as one holding an entry holds it too, if every leader elected in between held it |
| `RaftSafety.BlockingCompleteness` | src/cluster/raft.cpp:21-51 | once a set that meets every majority acknowledged an entry of term t while in term t, every leader of a later term, at any moment, holds it and everything before it at the same positions |
| `RaftSafety.LeaderCompleteness` | src/cluster/raft.cpp:21-51 | once a majority acknowledged an entry of term t while in term t, every leader of a later term holds it and everything before it at the same positions |
| `RaftSafety.StoredEntriesAgree` | src/cluster/raft.cpp:21-51 | two majority-stored entries agree on their common prefix, whatever nodes and moments hold them |
| `RaftCommit.MatchIndexSound` | src/cluster/raft.cpp:101-103 | for a leader and a follower still in its term, the follower's log agrees with the leader's up to the match index |
| `RaftCommit.CommitLoopStores` | src/cluster/raft.cpp:104-113 | an index committed by the loop is, then and there, stored on a majority and of the current term |
| `RaftCommit.CommitLoopSafe` | src/cluster/raft.cpp:104-113 | every later leader holds the prefix that the loop committed |
| `RaftCommit.MajorityCommits` | src/cluster/raft.cpp:101-113 | a successful reply that completes a strict majority for an entry of the leader's term commits at least up to it |
| `RaftCommit.FollowerAdoptsCommit` | src/cluster/raft.cpp:34-51 | in every run an accepting follower ends with its leader's commit index and log prefix, so its commit index drops exactly when the leader's is lower |
| `RaftClient.ClientCommitBacked` | src/cluster/raft.cpp:53-59 | right after a client append the committed index is held by the leader alone, hence by a majority exactly when the cluster has one node |
| `RaftClient.SmallClusterKeeps` | src/cluster/raft.cpp:53-59 | with at most two nodes every leader of a later term holds whatever a client append committed |
| `RaftClient.LossRun` | src/cluster/raft.cpp:57-57 | in every cluster of three or more, a run at whose end an entry that one leader counts as committed is absent from the log of the leader of a later term |
| `RaftClient.ClientCommitsKeptExactly` | src/cluster/raft.cpp:53-59 | for every non-empty cluster: in every run each client-committed prefix is in every later leader's log, if and only if there are at most two nodes |
| `RaftClient.CommitIndexFalls` | src/cluster/raft.cpp:49-49 | in every cluster of three or more, a run whose last round lowers a commit index from 1 to 0 and leaves the log alone |
| `RaftDelivery.RepeatedGrantsElectTwo` | src/cluster/raft.cpp:61-74 | in every cluster of four or more, a run whose delivery rule differs only in allowing a voter's grant to be heard again has two leaders of one term at the same moment |
| `RaftDelivery.SmallClusterSafe` | src/cluster/raft.cpp:61-74 | with at most three nodes no such run has two leaders of one term, at whatever moments |
| `RaftDelivery.RepeatedGrantsSafeExactly` | src/cluster/raft.cpp:61-74 | election safety survives hearing grants again if and only if the cluster has at most three nodes |
| `RaftDelivery.LateAppendTruncates` | src/cluster/raft.cpp:45-48 | a request built earlier and delivered late leaves a complete follower complete if and only if nothing newer exists or nothing was sent |
| `RaftConvergence.FailedRound` | src/cluster/raft.cpp:96-100 | a refused round lowers the bound on the remaining rounds |
| `RaftConvergence.SuccessfulRound` | src/cluster/raft.cpp:101-103 | after a success the leader's log is a prefix of the follower's, equal to it if entries were sent |
| `RaftConvergence.Converges` | src/cluster/raft.cpp:76-103 | an undisturbed leader reaches its first success within a bound given by the follower's next index, unconfigured followers included |
| `RaftConvergence.ReadyInEveryRun` | src/cluster/raft.cpp:76-103 | the assumptions of convergence hold for every leader and follower of every run |
| `HashRing.InsertMeans` | src/storage/consistent_hash.cpp:11-13 | assigning a slot keeps the ring ordered and replaces exactly what stood at that point |
| `HashRing.ConsistentHashRing.AddNode` | src/storage/consistent_hash.cpp:11-13 | the loop inserts the node's virtual nodes 0 to v - 1 in order |
| `HashRing.ConsistentHashRing.RemoveNode` | src/storage/consistent_hash.cpp:15-20 | the erase loop leaves exactly the other nodes' slots, in order |
| `HashRing.ConsistentHashRing.Nodes` | src/storage/consistent_hash.cpp:38-45 | every id of the ring once, with a node from the ring |
| `HashRing.ConsistentHashRing.Locate` | src/storage/consistent_hash.cpp:22-36 | the loop returns the first r distinct healthy nodes of one clockwise walk from the key |
| `RingLaws.WalkStops` | src/storage/consistent_hash.cpp:28-34 | the loop ends within one turn if enough healthy ids exist, and otherwise never ends |
| `RingLaws.LocatedMeans` | src/storage/consistent_hash.cpp:22-36 | pairwise distinct healthy nodes of the ring, min(r, number of ids) of them |
| `RingLaws.LocatedNearest` | src/storage/consistent_hash.cpp:22-36 | each replica owns the nearest point clockwise of the key among those of healthy nodes not chosen before it |
| `RingLaws.LocatedGrows` | src/storage/consistent_hash.cpp:22-36 | the result for r is a prefix of the result for r + 1 |
| `RingLaws.LocatedIsEverybody` | src/storage/consistent_hash.cpp:22-36 | when ids fit in r, every healthy id is returned |
| `RingLaws.MinimalDisruption` | src/storage/consistent_hash.cpp:15-36 | after a node leaves, the replicas are the old r + 1 without it, cut to r |
| `Placement.VirtualNamesDiffer` | src/storage/consistent_hash.cpp:12-12 | virtual node names are injective in id and number |
| `Placement.InjectiveHashPlaces` | src/storage/consistent_hash.cpp:11-13 | under a hash without collisions the virtual nodes of any members never collide |
| `Placement.RingUnique` | src/storage/replication.cpp:39-43 | a set of members has one ring |
| `Placement.RingOfMore` | src/storage/replication.cpp:41-41 | adding a member that collides with no other to the ring of a set gives the ring of the larger set |
| `Placement.BuiltRing` | src/storage/replication.cpp:40-41 | without collisions between members, adding them in any order builds the one ring of the set |
| `Placement.PlanTargets` | src/storage/replication.cpp:39-43 | the ring is built from the listed nodes in their order, and the targets are what `locate` means on it |
| `Placement.PlanDeterministic` | src/storage/replication.cpp:39-47 | two plans for the same key and members are equal when virtual nodes of different members do not collide |
| `Placement.OrderMatters` | src/storage/replication.cpp:13-18 | if virtual nodes of two members collide, two listings of the members give that point different first replicas |
| `Placement.OrderFreeExactly` | src/storage/replication.cpp:39-47 | for healthy members: every listing gives every key and replica count the same targets if and only if virtual nodes of different members never collide |
| `Placement.PlanMembers` | src/storage/replication.cpp:39-43 | targets are members, with or without collisions |
| `Placement.PlanIsEverybody` | src/storage/replication.cpp:39-43 | with members within the replication factor every member is a target |
| `Placement.PlanSize` | src/storage/replication.cpp:39-43 | a plan has min(replication factor, members) targets |
| `Placement.ClusterState.KnownNodes` | src/storage/replication.cpp:13-18 | every member exactly once |
| `Placement.ClusterState.WritePlan` | src/storage/replication.cpp:39-43 | a plan of the known members, in the order they happen to be listed |
| `ChunkService.PeerNodes.PutChunk` | server/main.cpp:192-200 | a confirmed write is on the peer's disk under its own hash; a lost one may be; no other copy is added, and none is changed |
| `ChunkService.PeerNodes.GetChunk` | server/main.cpp:202-209 | an answer has the asked-for hash; a reachable holder answers |
| `ChunkService.PeerNodes.DeleteChunk` | server/main.cpp:211-218 | a confirmed delete removes that copy, and no delete removes any other |
| `ChunkService.DistributedChunkService.RefreshSeedMembers` | src/cluster/distributed_chunk_service.cpp:25-28 | self and seeds are entered in order |
| `ChunkService.DistributedChunkService.Put` | src/cluster/distributed_chunk_service.cpp:30-51 | local write first, the plan, which targets confirmed, hints for exactly the others in plan order, success exactly when one plus the confirmations reach the write quorum |
| `ChunkService.DistributedChunkService.Send` | src/cluster/distributed_chunk_service.cpp:36-47 | the loop over targets counts distinct confirming targets and queues the others |
| `ChunkService.DistributedChunkService.Get` | src/cluster/distributed_chunk_service.cpp:53-81 | when a read must and may succeed, the hash of what it returns, that repair only adds this chunk at targets and reaches every reachable replica that failed to answer, and the error codes |
| `ChunkService.DistributedChunkService.Ask` | src/cluster/distributed_chunk_service.cpp:60-77 | stops at the first quorum of distinct answers, else has asked everybody; nobody sure to answer is on the failed list |
| `ChunkService.DistributedChunkService.Repair` | src/cluster/distributed_chunk_service.cpp:67-70 | copies are only added, and every reachable failed replica ends up with the chunk |
| `ChunkService.DistributedChunkService.Remove` | src/cluster/distributed_chunk_service.cpp:83-94 | nothing happens while references remain; otherwise only this chunk is deleted, only at targets, and success means min(quorum, targets) confirmations |
| `ChunkService.DistributedChunkService.Delete` | src/cluster/distributed_chunk_service.cpp:88-91 | the loop's confirmations are distinct targets that no longer have the chunk |
| `ChunkService.DistributedChunkService.ReplayHintedHandoff` | src/cluster/distributed_chunk_service.cpp:96-116 | the queue becomes exactly the undelivered hints in order, and stays as it was when it cannot be rewritten |
| `ChunkService.DistributedChunkService.Resend` | src/cluster/distributed_chunk_service.cpp:102-111 | which hints were delivered, kept and counted |
| `ServiceLaws.CopiesAccumulate` | src/cluster/distributed_chunk_service.cpp:30-116 | over any run without deletes every copy on every node stays as it was |
| `ServiceLaws.HoldersNeverDrop` | src/cluster/distributed_chunk_service.cpp:66-72 | read repair included, the holders of a chunk never become fewer |
| `ServiceLaws.QuorumWrite` | src/cluster/distributed_chunk_service.cpp:36-50 | a successful put leaves at least W distinct targets holding the chunk if the coordinator is a target, W - 1 if not |
| `ServiceLaws.PutAckedBy` | src/cluster/distributed_chunk_service.cpp:36-50 | for any set of other targets that meets the quorum with the local write, a successful put step after which exactly those received the chunk |
| `ServiceLaws.SelfCountsExactly` | src/cluster/distributed_chunk_service.cpp:36-50 | every successful put with a plan leaves W holders if and only if the coordinator is a target, or W is not positive, or no W - 1 targets closed under shared addresses exist |
| `ServiceLaws.SelfCountsApart` | src/cluster/distributed_chunk_service.cpp:36-50 | with targets at distinct addresses: if and only if the coordinator is a target, or W is not positive or above the number of targets plus one |
| `ServiceLaws.SelfAlwaysPlanned` | src/cluster/distributed_chunk_service.cpp:25-39 | with members within the replication factor the coordinator is a target |
| `ServiceLaws.ReadStops` | src/cluster/distributed_chunk_service.cpp:60-77 | if enough of the first k targets are sure to answer, a read succeeds within them and repairs no target beyond them |
| `ServiceLaws.RemovalAnswers` | src/cluster/distributed_chunk_service.cpp:87-93 | a removal reported done took the chunk off min(W, targets) targets; one refused as unavailable could not reach that many |
| `ServiceLaws.ReadAfterWrite` | src/cluster/distributed_chunk_service.cpp:30-81 | a chunk put at one moment is read later with the same bytes, whatever happened between, if nothing was deleted, membership stayed, the read reaches the holders and R is at most the guaranteed holders |
| `ServiceLaws.QuorumReadAfterWrite` | src/cluster/distributed_chunk_service.cpp:30-81 | the same for known nodes within the replication factor and R <= W, with at least W targets holding the chunk |
| `ServiceLaws.PutCovers` | src/cluster/distributed_chunk_service.cpp:37-47 | a put, successful or not, leaves each other target with the chunk or with a queued hint |
| `ServiceLaws.CoverageStep` | src/cluster/distributed_chunk_service.cpp:96-116 | every step without deletion keeps that coverage, replay included |
| `ServiceLaws.HandoffCoverage` | src/cluster/distributed_chunk_service.cpp:36-116 | in every run without deletes, each non-self target of a put holds the chunk or has a queued hint from then on |
| `ServiceLaws.ReplayConserves` | src/cluster/distributed_chunk_service.cpp:100-115 | delivered plus remaining equals loaded; with everybody up and all chunks here the queue empties |
| `Handoff.HintedHandoffQueue.Enqueue` | src/cluster/hinted_handoff.cpp:11-19 | one line is added to the file, or nothing |
| `Handoff.HintedHandoffQueue.Load` | src/cluster/hinted_handoff.cpp:21-34 | the reading loop returns what the lines parse to, in order |
| `Handoff.HintedHandoffQueue.Replace` | src/cluster/hinted_handoff.cpp:36-45 | the file becomes the printed list |
| `Handoff.QueueFaithfulExactly` | src/cluster/hinted_handoff.cpp:11-45 | a printed list loads back as it was if and only if every field is a single non-empty word |
| `Handoff.LineWords` | src/cluster/hinted_handoff.cpp:16-16 | the words of a printed hint are id, address, checksum and size, in this order |
| `Handoff.LoadsLine` | src/cluster/hinted_handoff.cpp:27-31 | any line gives a hint if and only if it has three words, with size 0 when no number follows them |
| `Handoff.LoadAppend` | src/cluster/hinted_handoff.cpp:16-33 | loading a file that was added to gives the old hints followed by the new |
| `Handoff.LoadedReload` | src/cluster/hinted_handoff.cpp:21-45 | whatever was loaded from any file survives being rewritten |
| `Metadata.NoRowsExactly` | src/metadata/metadata_store.cpp:118-126 | the number of rows naming a chunk is zero if and only if no chunk list names it |
| `Metadata.ZeroReportedExactly` | src/metadata/metadata_store.cpp:118-126 | a reported zero occurs if and only if no chunk list names the chunk or the query was not answered |
| `Metadata.MetadataStore.PutObject` | src/metadata/metadata_store.cpp:35-74 | the transaction replaces the object and its chunk list or changes nothing; a failing COMMIT may leave the changes in an open transaction, which refuses all later ones |
| `Metadata.MetadataStore.InsertRows` | src/metadata/metadata_store.cpp:56-72 | the inserting loop adds exactly the listed rows, and stops at a row that is still there |
| `Metadata.MetadataStore.GetObject` | src/metadata/metadata_store.cpp:76-99 | the object with its chunk rows in position order; not found also when the object query fails, and a shorter list when the chunk query breaks off |
| `Metadata.MetadataStore.DeleteObject` | src/metadata/metadata_store.cpp:101-116 | which of the two statements took effect, and how the reported result follows from the last one that completed |
| `Metadata.MetadataStore.ChunkRefCount` | src/metadata/metadata_store.cpp:118-126 | the count over all rows, or zero when the query fails; zero exactly for unnamed chunks or unanswered queries |
| `ObjectModel.RefreshedTwice` | src/cluster/distributed_chunk_service.cpp:25-28 | announcing self and seeds again changes nothing |
| `Membership.RefreshedMeans` | src/cluster/distributed_chunk_service.cpp:25-28 | announcing leaves the old ids, self and every seed as keys; a seed id has its last listed entry, self its own if unlisted, all others what they had |
| `Membership.FirstPutSucceeds` | src/cluster/distributed_chunk_service.cpp:30-51 | from an empty table with every configured node up and no colliding virtual nodes, a put succeeds if W is at most the number of configured ids and the replication factor |
| `Membership.FirstPutReachesSeeds` | src/cluster/distributed_chunk_service.cpp:30-51 | if the configured ids also fit in the replication factor, the plan is exactly self and seeds, every seed gets the chunk, and the put succeeds if and only if W is at most their number |
| `ObjectModel.PutPlaces` | src/cluster/distributed_chunk_service.cpp:36-50 | without faults every target of every plan for the chunk has it afterwards |
| `ObjectModel.CalmPutSucceeds` | src/cluster/distributed_chunk_service.cpp:36-50 | without faults a put succeeds when the quorum fits the members |
| `ObjectModel.SureReadSucceeds` | src/cluster/distributed_chunk_service.cpp:53-81 | a read succeeds when R <= 1 and the local copy is good, or when all replicas are written and reachable |
| `ObjectModel.RemovalSpares` | src/cluster/distributed_chunk_service.cpp:83-94 | removing an unreferenced chunk touches no copy of a referenced one |
| `ObjectModel.RemovalSparesExactly` | src/cluster/distributed_chunk_service.cpp:83-94 | every outcome of a removal leaves all copies of live chunks alone if and only if the count given was positive, or no chunk row names the chunk, or no target has it |
| `ObjectModel.ReportedCountSparesExactly` | server/main.cpp:163-166 | removing by the reported count is harmless if and only if the count query was answered, or no chunk row names the chunk, or no target has it |
| `ObjectModel.RemovalCollects` | src/cluster/distributed_chunk_service.cpp:83-94 | without faults the removed chunk is on none of its targets |
| `ObjectModel.DeletionIsSafe` | server/main.cpp:153-169 | such deletions leave every remaining object that avoids the misread chunks backed and fully placed |
| `ObjectModel.TidyAfterPut` | server/main.cpp:117-123 | an overwriting PUT leaves exactly the old chunks that no row names any more behind, on all their targets |
| `ObjectModel.TidyAfterDelete` | server/main.cpp:161-166 | a DELETE leaves nothing behind, and also collects what an earlier PUT had left of the same chunks |
| `ObjectSpec.PutTookEffect` | server/main.cpp:117-123 | once chunks and rows are stored the map has the new body, the object is backed, and without faults everything is where it should be |
| `ObjectSpec.GetRead` | server/main.cpp:138-150 | whatever chunks were read, a 200 has the body of the map, and all of them being sure to be read makes it a 200 |
| `ObjectSpec.DeleteSwept` | server/main.cpp:161-168 | for every outcome of the two statements and of the counts: what the map, the other objects and the chunks become |
| `ObjectServer.Server.PutObject` | server/main.cpp:110-130 | 201 means the map has the new body; another status means it has not, unless a COMMIT failed; the log record comes with it; 400 exactly for an empty bucket or key; what overwriting leaves behind; without faults 201 |
| `ObjectServer.Server.Upload` | server/main.cpp:117-121 | the chunk list spells the parts, every chunk is on the coordinator's disk, on all targets when nothing failed, and no other chunk is touched |
| `ObjectServer.Server.GetObject` | server/main.cpp:132-151 | 200 returns the map's bytes even when queries fail, 404 exactly for absent keys or an unanswered object query, and 200 is certain when the quorum can be met and the database answers |
| `ObjectServer.Server.Download` | server/main.cpp:138-146 | the pieces read have the listed hashes, in order, and no other chunk is touched |
| `ObjectServer.Server.DeleteObject` | server/main.cpp:153-169 | when 204 means the key is gone and 404 that it was absent; no copy on any node of a chunk that a remaining row names is touched, except chunks of the object whose count was misread; other objects stay readable; without faults unnamed chunks are gone from all their targets |
| `ObjectServer.Server.Collect` | server/main.cpp:163-166 | the loop spares named chunks whose count was answered and collects unnamed ones, repeats in one object included |
| `ObjectServer.Server.Handle` | server/main.cpp:110-169 | one request refines one step of the plain map, and matches it exactly without faults |
| `ObjectServer.Server.Serve` | server/main.cpp:110-169 | the same for any sequence of requests, each in its own surroundings |
| `ObjectServer.LatestCommitted` | server/main.cpp:110-169 | the plain map after a run holds for each key the body of its latest PUT that took effect unless a DELETE took effect after it |
| `ServerStart.PlacedOnSeeds` | src/cluster/distributed_chunk_service.cpp:36-47 | if the configured ids fit in the replication factor, a chunk on all its targets is on self and on every seed |
| `ServerStart.AnsweredIsPlain` | server/main.cpp:110-169 | when every answer is the plain map's, the map after any number of requests is the one that the requests alone describe |
| `ServerStart.StartAndServe` | server/main.cpp:80-169 | a server started from a workable configuration with everything up answers every sequence of requests exactly as a plain map does (201 for every well-formed PUT), and leaves every chunk of every object on every seed if they fit in the replication factor |
| `ChunkStore.Store.Put` | src/storage/chunk_store.cpp:18-36 | the chunk is stored under its hash unless a file is there; the reference names hash and size |
| `ChunkStore.Store.Get` | src/storage/chunk_store.cpp:38-47 | a success has the asked-for hash whatever happened to the files; undisturbed, the store is the plain map of all puts |
| `ChunkStore.Store.RemoveIfUnreferenced` | src/storage/chunk_store.cpp:49-56 | the file goes only at zero references |
| `ChunkStore.ChunkBytes` | src/storage/chunk_store.cpp:62-71 | chunks of one size and a shorter last one that together are the input; one empty chunk for an empty input |
| `Lru.LruCache.Put` | include/dstore/common/lru_cache.h:16-29 | list and index stay exactly the most recent keys of the history with their latest values |
| `Lru.LruCache.Get` | include/dstore/common/lru_cache.h:31-37 | a hit returns the latest value and becomes most recent; a miss changes nothing |
| `Lru.RecentSnoc` | include/dstore/common/lru_cache.h:16-37 | in the reference history a new event moves its key to the front |
| `Lru.CacheStep` | include/dstore/common/lru_cache.h:16-37 | moving to the front and cutting the cached list equals cutting the whole history |
| `Lru.RecentHasValue` | include/dstore/common/lru_cache.h:31-37 | every listed value is the latest one put for its key |
| `Sha256.FoldConcat` | src/common/sha256.cpp:23-30 | compression can pause at any split: state and rest determine the continuation |
| `Sha256.PadAligned` | src/common/sha256.cpp:33-36 | a padded message is a whole number of 64-byte blocks |
| `Sha256.PadInjective` | src/common/sha256.cpp:33-36 | padding is injective for messages of every length, wrapped length field included |
| `Sha256.BuildSchedule` | src/common/sha256.cpp:65-74 | the array filled front to back is the message schedule |
| `Sha256.Stream.Update` | src/common/sha256.cpp:23-30 | the stream stands where the one-shot computation stands after everything fed so far |
| `Sha256.Stream.Transform` | src/common/sha256.cpp:64-87 | the rounds compute the compression function |
| `Sha256.Stream.Finish` | src/common/sha256.cpp:32-49 | the digest of the concatenation, however it was split |
| `Sha256Facts.DigestWords` | src/common/sha256.cpp:42-47 | the digest read as eight words, high bytes first, is the final registers |
| `Sha256Facts.JoinedOut` | src/common/sha256.cpp:43-46 | writing out four joined bytes gives them back in order |
| `Sha256Facts.WordBytes` | src/common/sha256.cpp:66-69 | a word read from a block has the block's bytes, high byte first |
| `Sha256Facts.PadMeans` | src/common/sha256.cpp:33-36 | message, one bit, the fewest zeros that make whole blocks, and the length in bits modulo 2^64 as a big-endian number |
| `Sha256Facts.ConstantIsCubeRoot` | src/common/sha256.cpp:9-17 | round constant i is the first 32 fraction bits of the cube root of prime number i + 1 |
| `Sha256Facts.InitialIsSquareRoot` | src/common/sha256.cpp:21-21 | initial register i is the first 32 fraction bits of the square root of prime number i + 1 |
| `Sha256Facts.Sum0Bit` | src/common/sha256.cpp:80-80 | a single bit goes to the places 2, 13 and 22 below it, modulo 32 |
| `Sha256Facts.Sum1Bit` | src/common/sha256.cpp:77-77 | a single bit goes to the places 6, 11 and 25 below it, modulo 32 |
| `Sha256Facts.Sigma0Bit` | src/common/sha256.cpp:71-71 | a single bit goes 7 and 18 places down modulo 32, and 3 places down unless it falls off |
| `Sha256Facts.Sigma1Bit` | src/common/sha256.cpp:72-72 | a single bit goes 17 and 19 places down modulo 32, and 10 places down unless it falls off |
| `Sha256Facts.ChooseBits` | src/common/sha256.cpp:78-78 | each bit of e selects the bit of f or of g |
| `Sha256Facts.MajorityBits` | src/common/sha256.cpp:81-81 | a bit is set if and only if at least two of the three are |
| `Sha256Vector.KnownVector` | tests/sha256_test.cpp:5-7 | the digest of "abc" is the one that FIPS 180-4 and the program's own test name |
| `Sha256.HexReadsBack` | src/common/sha256.cpp:51-58 | the lower-case text, two digits per byte and high digit first, reads back as the digest |
| `Wal.WriteAheadLog.Append` | src/durability/wal.cpp:19-27 | the file is the printed list of all appended records |
| `Wal.WriteAheadLog.ReplayFile` | src/durability/wal.cpp:29-52 | the two nested loops compute the replay of the file |
| `Wal.TornBodyRefused` | src/durability/wal.cpp:46-48 | any proper prefix of a record's line is refused |
| `Wal.ReplayCut` | src/durability/wal.cpp:29-52 | for every cut, exactly what replay returns: the whole records before it, or an error when a line is torn |
| `Wal.SurvivorsArePrefix` | src/durability/wal.cpp:29-52 | so a cut yields a prefix of the appended records or an error, and no cut yields all |
| `Wal.ReplayFaithfulExactly` | src/durability/wal.cpp:19-52 | the whole file replays to the appended records if and only if no field has a tab or newline |
| `Wal.BodyFields` | src/durability/wal.cpp:21-23 | a record's line is kind, key, payload and the checksum of these three, separated by tabs |
| `Wal.ReplayedIsChecked` | src/durability/wal.cpp:46-48 | if a file replays, every line of it is some text, a tab and the checksum of that text |
| `Wal.DamageRefused` | src/durability/wal.cpp:46-48 | a file whose checksums are kept but where the text of any line was changed to one with another checksum is refused |
| `Wal.OnlyTheFileReplays` | src/durability/wal.cpp:29-52 | under a hash that tells the texts apart, a file with the checksums kept replays only if it is the file that was written |
| `Wire.EncodeFrame` | src/network/wire.cpp:24-33 | the pushes build header, id and payload with lengths cut to 16 and 32 bits |
| `Wire.FrameLayout` | src/network/wire.cpp:24-33 | kind, id length and payload length as big-endian numbers in bytes 0-1, 2-3 and 4-7, then the id, then the payload |
| `Wire.RoundTrip` | src/network/wire.cpp:24-45 | decoding gives the frame back if and only if the id has fewer than 2^16 bytes and the frame fewer than 2^32; otherwise it is rejected |
| `Wire.AcceptedReencodes` | src/network/wire.cpp:35-45 | every accepted byte string re-encodes to itself |
| `Wire.OutOfRangeExactly` | src/network/wire.cpp:41-43 | the copy would leave the buffer exactly when the 32-bit length sum wraps onto the buffer's size |
| `Wire.OutOfRangeHappens` | src/network/wire.cpp:41-43 | twelve bytes for which the copy would leave the buffer |

## Left out

- RaftMachine.Machine.AppendEntries: requests holding an entry of index 0 are excluded; no node sends one, and on it the program asks for a log of 2^64 - 1 entries.
- RaftMachine.Machine.ObserveAppendResponse: logs whose positions and indexes disagree are excluded; `LogMatching` shows that no run has one, and on them the program reads outside the log.
- HashRing.ConsistentHashRing.Locate: rings with too few healthy ids are excluded, because there the program does not return; `WalkStops` proves exactly that.
- Placement.PlanTargets: listings on whose ring the walk does not end are excluded, because there the program does not return; `WalkStops` says exactly when.
- Placement.ClusterState.WritePlan: as for `PlanTargets`; with healthy members, and the server registers no others, the walk always ends.
- AppendEntries requests and replies that are duplicated, reordered or delivered late, vote replies delivered late, and crashes or persistence of a node: replies carry no identity and nothing is stored, so the theorems are about atomic round trips whose reply may be lost.
- Raft counters of 64 bits: terms and indexes are unbounded numbers.
- State-machine safety over the commit index itself: the append path commits before replication, see `ClientCommitsKeptExactly`.
- Members other than the coordinator that share its address: an RPC always goes to another node.
- A chunk service without a handoff queue: the server always configures one.
- The window between loading and rewriting the handoff queue: replay is one sequential call.
- A handoff or log file whose writes fail half way: a write is done or not done.
- Number parsing by `stoi` and stream extraction beyond unsigned digits (signs, leading blanks, overflow).
- SQLite itself: SQL text, collation, embedded NUL characters, and losing an open transaction in a crash.
- The heartbeat route: `ObjectServer` keeps the configured membership, while the laws of `ServiceLaws` allow heartbeats at any point.
- JSON bodies of answers and the splitting of request paths into bucket and key.
- Reclaiming what overwriting or failing PUTs leave behind, and the coordinator's own copy of a chunk of which it is not a target: the code never does, unless a later DELETE names the same chunk.
- Sockets, HTTP, authentication, configuration, logging, metrics, the thread pool, clients and scripts.
- Clocks: `healthy_nodes`, `elect_leader` and the heartbeat worker.
- Repair and rebalance workers: loops over reading and writing the same chunk.
- Rebuilding metadata from the write-ahead log: the program only counts the records at start.
- Concurrent requests: one coordinator serves one request at a time.
