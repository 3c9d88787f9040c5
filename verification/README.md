# A verified model of jkv

jkv is a key-value server replicated with Raft. A peer turns client requests into Raft
proposals, remembers each one with the log index it guesses for it, applies committed entries
to a database on disk in log order, and decides for every waiting client whether it succeeded
or was rejected. This project models that peer, the cluster it runs in, and two pieces of the
base library under it, the object pool and the blocking queue, and proves what they guarantee.

## How it is built

- `KvModel`, `PeerLogic`: commands, entries, the sequential map a log denotes, and what each
  operation of the peer computes, as functions of its state.
- `PeerImpl`: the objects (peer, disk storage, service, closure guard) with the operations that
  update them in place, proved against those functions. `Refinement` ties `KvOpCb`,
  `ProcessEntry`, `HandleRaftReady` and the start of a process to steps of the cluster.
- `Cluster`: any number of nodes as atomic steps: become leader, step down, overwrite a log
  suffix, commit, learn the commit index, apply one entry, submit, restart.
- `Application`: what applying an entry does to the waiting proposals, spelled out.
- `RaftEnvironment`, `Acceptance`, `Rejections`, `Replay`, `Linearizability`, `Conservation`:
  the invariants of those steps, whatever Raft does with the proposals; `ProposalQueue` has
  those that hold when it accepts all of them. `Theorems` states what follows for every run,
  `Limits` gives runs that show each way a guarantee can fail, `Runs` one in which all goes well.
- `Members`: the text format of the member list.
- `ObjPoolModel`, `ObjPool`: the allocator's address arithmetic and its histories, and the
  class with the arrays.
- `BlockingQueue`: queue, condition variable and mutex as interleaved steps of any number of
  threads, one pthread call or one assignment at a time. `QueueCalls` says what that
  means for the callers of `put`, `take` and `size`.
- `Counting`: the one definition the tallies share.

## What is assumed

Raft is an environment. Its guarantees (Figure 3 of "In Search of an Understandable Consensus
Algorithm") are the enabling conditions of the steps in `Cluster.Enabled`: a term has at most
one leader; a leader starts with a no-op and only appends; a follower's log becomes a prefix of
some leader's log and keeps what it knows to be committed; the committed log only grows, along
a leader's log. Contiguous indices, non-decreasing terms, Log Matching and the agreement of
every node with the committed log are then proved. Leader Completeness is not needed and not
assumed, so the runs include more than Raft allows. A restart forgets the Raft log and the
term, because the storage given to Raft is in memory (example/echo/server/main.cc:62); that
the committed log survives restarts is a condition on the environment.

Whether Raft accepts a proposal made on a leader is left open: the peer ignores the return
value of `Propose` (src/peer/peer.cc:96) and queues a refused proposal like any other. The
theorems hold for every run and say what depends on acceptance: `Theorems.SuccessIsRight` and
`Theorems.Linearizable` are equivalences with "Raft had accepted the client's own proposal".
`NeverDrops`, that Raft accepts every proposal, is a hypothesis only of
`LinearizableWithoutDrops`, `StaleRejectionIsFinal`, `SweptAtOrAfter`, `QueueIsOrderedAndAhead`
and `LookupIsExact`, each of which has a counterpart without it (`Linearizable`,
`RefusalSettles`, `SweptInItsTerm`, `Acceptance.StepKeepsTrack`, `LookupWithDrops`).

`JLOG_FATAL` stops the process; a stopped process takes no step until it restarts. Entry data
is modelled as the parsed command: serializing and parsing are an inverse pair and empty data
is the no-op. Submissions are Get, Put or Del. The origin of an entry and some arguments of an
answer are bookkeeping that no step of the peer reads.

The pool is modelled with assertions enabled, since its bookkeeping runs inside `assert`, and
after a successful allocation of a positive number of objects of positive size.

## Where the code differs from what one might expect

- What a rejection says about the request depends on where it was rejected. On a follower, by
  `GetProposal`, or by `CallbackAll` for an entry that the proposal precedes in (term, index),
  it settles the fate: the request is committed later if and only if it already was, which is
  the case exactly if Raft had accepted it and another client, whose proposal Raft refused, was
  told of its success (`Theorems.RefusalSettles`). Rejected by `CallbackAll` otherwise, an accepted
  request may still commit (`Limits.SweptRequestStillCommits`). What is certain is that it never
  does once the committed log has left the log of the leader that accepted it
  (`Theorems.LeftBranchIsFinal`). In the environment modelled here nothing else prevents it
  (`Theorems.CommitsOnItsBranch`), but that environment counts no quorum and may commit an entry
  that no running node holds any more; under Raft such a request can be lost without a trace.
- A client whose accepted proposal waits when its own entry is applied is told of the success if
  and only if the peer still leads, the entry does not read a missing key, and no refused proposal
  with the same numbers waits ahead of it (`Theorems.OwnEntryIsAnswered`). A follower executes the
  request and tells the client in the same step that it was rejected: `ProcessEntry` calls
  `CallbackAll` before the entry, its own proposal included (src/peer/peer.cc:185-188,
  `Theorems.OwnEntryIsSwept`, `Limits.OwnEntryRejected`).
- A proposal that Raft refuses stays queued with the number that the next accepted one gets. The
  lookup of that entry then finds the refused client (`Acceptance.AcceptedIsFound`), which is
  told of a success that was another's, and the client of the entry is rejected by the next
  lookup although its request was executed (`Limits.DroppedProposalIsMisattributed`,
  `Limits.CommittedRequestIsRejected`).
- The first object handed out by a fresh pool is the one at the highest address: the free list is
  filled in address order and used from its end (`ObjPoolImpl.FirstMallocs`).
- A Get of an absent key stops every peer that applies it, at the same entry after every
  restart.
- The check for an empty member list (src/peer/peer.cc:103-105) never fires: splitting always
  yields at least one part. An empty text stops the process as a member without four fields.

## Model

| member | source | states |
|---|---|---|
| Theorems.Linearizable | src/peer/peer.cc:84-267 | at every moment of every run the committed log orders submitted requests only, each once and in real-time order, and is a linearization of the answers given so far if and only if no client whose proposal Raft refused was told of a success; later orders extend earlier ones |
| Theorems.SuccessIsRight | src/peer/peer.cc:91-96 | in every run, a success is the sequential reply at the client's own place in the order if and only if Raft accepted that client's proposal, which is the return value that `ProposeKvOp` ignores |
| Theorems.LinearizableWithoutDrops | src/peer/peer.cc:84-267 | if Raft accepts every proposal, every history is linearizable by the committed log, refused requests being absent from it |
| Linearizability.CommittedLogLinearizes | src/peer/peer.cc:182-229 | the invariants of a state give two parts of the linearization outright, and all four exactly when every success went to a client whose proposal was accepted |
| Theorems.RefusalSettles | src/peer/peer.cc:248-262 | in every run, a request refused on a follower, by the lookup, or by a sweep for an entry that it precedes is committed later if and only if it already was, and that if and only if Raft had accepted it and a client whose proposal Raft refused was told that this very (index, term) was its own |
| Theorems.StaleRejectionIsFinal | src/peer/peer.cc:248-275 | if Raft accepts every proposal, a proposal rejected by the lookup, or swept for an entry that it precedes, is not in the committed log then or at any later time, neither its client's request nor its (index, term) |
| Theorems.SweptInItsTerm | src/peer/peer.cc:185-188 | a request swept for an entry of its own term whose index is not below its own is committed at its own index if and only if Raft accepted it; if the entry's index is above, somebody else was told of its success |
| Theorems.SweptAtOrAfter | src/peer/peer.cc:269-275 | if Raft accepts every proposal, no sweep finds a proposal of the entry's term with a smaller index |
| Theorems.OwnEntryIsAnswered | src/peer/peer.cc:182-229 | in every run, the step that applies the entry of an accepted proposal waiting here tells its client of a success, with the sequential reply, if and only if the peer leads, the entry does not read a missing key, and no proposal with the same numbers waits ahead |
| Theorems.OwnEntryIsSwept | src/peer/peer.cc:185-191 | a follower that applies the entry of an accepted proposal waiting on it executes the request and answers `rejected` in the same step |
| Theorems.LeftBranchIsFinal | src/peer/peer.cc:269-275 | an accepted request, swept or not, is never committed once the committed log does not run along the log of the leader that accepted it |
| Theorems.CommitsOnItsBranch | src/peer/peer.cc:269-275 | in the modelled environment, which counts no quorum, an accepted request commits in some continuation of the run if and only if the committed log has not left that branch |
| Theorems.LookupIsExact | src/peer/peer.cc:240-252 | if Raft accepts every proposal: the same-term branch for a smaller index is never taken; the proposal returned is the one whose request the committed entry carries, and none is returned only if that client is not waiting |
| Theorems.LookupWithDrops | src/peer/peer.cc:240-252 | in every run: the proposal returned is the entry's own if and only if Raft accepted it; none is returned only if the entry's client is not waiting; the same-term branch rejects an accepted proposal only after somebody else was told of its success |
| Theorems.QueueIsOrderedAndAhead | src/peer/peer.h:78-90 | if Raft accepts every proposal, the waiting proposals strictly increase in (term, index) and all of them come strictly after the last entry applied, so none waits for an entry already applied |
| Theorems.GetReadsLastPut | src/peer/peer.cc:206-227 | in every run, a successful Get was answered with the value of the last committed put of its key that no later entry before its own puts or deletes; a successful write carries no value; the entry answered for is the client's request, if Raft accepted it |
| Theorems.DatabaseHoldsLastPuts | src/storage/disk_storage.cc:41-53 | on every key written in this life, and on all keys once the peer has caught up, the database holds the value of the last applied put, and nothing if the last write is a delete or there is none |
| KvModel.HeldExactly | src/storage/disk_storage.cc:32-53 | the law of the sequential map: it holds a value for a key if and only if some put of that value is the last entry to put or delete the key |
| KvModel.AbsentExactly | src/storage/disk_storage.cc:48-53 | a key is absent if and only if no entry writes it or the last entry to write it deletes it |
| Theorems.ReplicasAgree | src/peer/peer.cc:176-229 | two peers that have applied the same prefix, no less than in earlier lives, hold the same map, the sequential one |
| Theorems.ReplayConverges | src/peer/peer.cc:35-35 | with any number of restarts, the database is the sequential map on the keys written in this life, and any other key was written in an earlier one |
| Theorems.HaltsExactlyAtFirstMissing | src/storage/disk_storage.cc:32-39 | a peer halts exactly at the first Get of a key absent from the sequential map, in every life, and never gets past it |
| Theorems.HaltsOnUnputKey | src/storage/disk_storage.cc:32-39 | applying an entry halts if and only if it is a Get of a key that no earlier entry writes, or that the last one to write it deletes |
| Theorems.ClosuresConserved | src/peer/peer.cc:236-275 | every submitted closure is queued, has run or was lost with a process, once in all, whatever Raft does |
| Theorems.AnsweredForGood | src/service/kv_service.cc:29-35 | an answered client is answered once and never waits again |
| Theorems.NothingLostWithoutCrash | src/peer/peer.cc:182-229 | without restarts and halted processes no closure is lost, whatever Raft does with the proposals |
| Theorems.BatchIsApplyRun | src/peer/peer.cc:176-180 | a batch of committed entries is a run of single applications |
| Theorems.RaftGuarantees | src/peer/peer.cc:123-143 | one leader per term, Log Matching between any two nodes, applied and committed prefixes agree |
| RaftEnvironment.StepKeepsEnv | src/peer/peer.cc:123-143 | every step keeps contiguous indices, ordered terms, Log Matching and agreement with the committed log |
| Acceptance.StepKeepsTrack | src/peer/peer.cc:84-97 | every step, refused proposals included, keeps the queue weakly sorted in (term, index), the guess of each accepted proposal right, no no-op at or behind any guess in its leader's log, and an accepted proposal waiting for an applied entry only if somebody else was answered for it |
| Acceptance.StepKeepsBorn | src/peer/peer.cc:84-97 | the entry of an accepted request stays in its leader's log at the index and term it was proposed with |
| Acceptance.MatchedIsOwnIfAccepted | src/peer/peer.cc:240-244 | the proposal returned for an entry is the entry's own if and only if Raft accepted it, and the entry is never a no-op |
| Acceptance.AcceptedIsFound | src/peer/peer.cc:91-96 | after an accepted proposal, the lookup of its entry finds its own client if and only if no refused proposal waits with the same numbers, and a client whose proposal was refused otherwise |
| Rejections.RejectedIsSettled | src/peer/peer.cc:185-188 | a waiting proposal that precedes the entry about to be applied has its fate decided, and is committed only if somebody else was answered for it |
| Rejections.SettledIsFixed | src/peer/peer.cc:258-262 | a settled request is in the order at a later time if and only if it already is |
| ProposalQueue.StepKeepsQueue | src/peer/peer.cc:84-97 | every step that drops no proposal keeps the queue strictly sorted, each waiting proposal backed by its own entry in its leader's log, and all of them after the last entry applied |
| ProposalQueue.DropBreaksQueue | src/peer/peer.cc:91-96 | a submission keeps every waiting proposal backed by its own entry if and only if Raft does not drop the proposal; what clients are told is in `Theorems.SuccessIsRight` and `Acceptance.AcceptedIsFound` |
| ProposalQueue.RejectsOnlyEarlierTerms | src/peer/peer.cc:248-252 | the lookup rejects only proposals of earlier terms |
| ProposalQueue.MatchedIsOwn | src/peer/peer.cc:240-244 | equal (index, term) implies that the entry is this client's, although only the numbers are compared |
| Rejections.RejectedIsDoomed | src/peer/peer.cc:258-262 | if Raft accepts every proposal, a proposal that the lookup rejects has a term below that of a committed entry and is not committed, which no longer changes |
| Replay.NextGetIsSequential | src/peer/peer.cc:206-213 | in the middle of a replay the database still answers the next Get like the sequential map |
| Replay.CaughtUp | src/storage/disk_storage.cc:10-24 | a peer that has caught up with its own past holds exactly the sequential map |
| Replay.HaltsExactlyOnMissingRead | src/storage/disk_storage.cc:32-39 | applying an entry halts if and only if it reads a key absent from the sequential map |
| Replay.StepKeepsReplay | src/peer/peer.cc:197-229 | every step keeps the replay invariant |
| Linearizability.StepKeepsHistory | src/peer/peer.cc:182-229 | every step keeps each past answer justified by the committed log |
| Conservation.StepConserves | src/peer/peer.cc:236-275 | every step keeps the count of each closure |
| Conservation.ProcessEntryConserves | src/peer/peer.cc:182-275 | on any queue, what an entry takes off it is run or lost with the process, once |
| Conservation.ProcessEntriesConserves | src/peer/peer.cc:176-180 | so does a whole batch |
| Conservation.LostOnlyByHalting | src/peer/peer.cc:202-229 | an entry that is not a no-op loses its closure only by halting the process |
| Conservation.ProposeNeedsLeader | src/peer/peer.cc:93-95 | `ProposeKvOp` accounts for the closure if and only if the peer leads, which is why the service checks first |
| Limits.SweptRequestStillCommits | src/peer/peer.cc:269-275 | a run in which a request swept for an earlier entry of its own term commits and takes effect |
| Limits.OwnEntryRejected | src/peer/peer.cc:185-188 | a run in which the step that executes a request tells its client that it was rejected |
| Limits.DroppedProposalIsMisattributed | src/peer/peer.cc:91-96 | a run in which a dropped proposal makes one client's entry answer another client |
| Limits.CommittedRequestIsRejected | src/peer/peer.cc:254-262 | a run with one dropped proposal in which the lookup rejects a request that has been committed and executed |
| Application.FollowerSweeps | src/peer/peer.cc:185-188 | whatever waits on a node that does not lead, applying an entry empties the queue, and the events added are exactly one sweep answer for each waiting client, in order, with its own (index, term) |
| Application.LeaderSettles | src/peer/peer.cc:236-267 | on a leader, with any queue: the longest front that precedes the entry is rejected in order, the next proposal is taken if it has the entry's numbers, the rest stays, and no other client hears anything |
| Runs.AllGoesWell | src/peer/peer.cc:84-267 | a run of two nodes with replication, answers to a put and a get, a refusal on the follower, and a restart of the follower after which it catches up again |
| PeerLogic.FindProposalPartitions | src/peer/peer.cc:236-267 | on a sorted queue the lookup splits it in order into those before, the one at, and those after (term, index) |
| PeerLogic.FindSplits | src/peer/peer.cc:236-267 | on any queue the lookup loses no proposal and reorders none |
| PeerLogic.StaleCount | src/peer/peer.cc:237-266 | the rejected front of the queue is the longest one that precedes (term, index) |
| PeerLogic.HaltedBatch | src/peer/peer.cc:176-180 | once the process has halted, the rest of a batch has no effect |
| PeerImpl.Peer.constructor | src/peer/peer.cc:15-59 | a starting peer has the database found on disk, an empty queue and the parsed members |
| PeerImpl.Peer.ProposeKvOp | src/peer/peer.cc:84-97 | a leader queues the guessed index with its term, and the proposal becomes the entry at that index |
| PeerImpl.Peer.GetProposal | src/peer/peer.cc:236-267 | the loop returns, rejects and keeps exactly what the lookup says, running each rejected closure once in order |
| PeerImpl.Peer.CallbackAll | src/peer/peer.cc:269-275 | every waiting closure is rejected once in order and the queue is empty |
| PeerImpl.Peer.ProcessNormal | src/peer/peer.cc:197-229 | the effect of one entry on database, halting and answers, written out for each command |
| PeerImpl.Peer.ProcessEntry | src/peer/peer.cc:182-195 | lookup on a leader; otherwise every waiting client is swept and none stays; then the entry |
| PeerImpl.Peer.ProcessEntries | src/peer/peer.cc:176-180 | the entries of a batch in order, up to one that halts |
| PeerImpl.Peer.HandleRaftReady | src/peer/peer.cc:123-143 | the committed entries of a Ready are processed in order |
| PeerImpl.Peer.InitGroupMembers | src/peer/peer.cc:100-121 | the process halts exactly on a list with a part that has not three commas or with a repeated host, and otherwise holds the parsed table |
| PeerImpl.Peer.InsertMembers | src/peer/peer.cc:107-120 | the loop over the parts, stopped by the first bad part or repeated host |
| PeerImpl.RawNode.Propose | src/peer/peer.cc:96-96 | an accepted proposal on a leader is the next entry of its log |
| PeerImpl.KvService.KvOpCb | src/service/kv_service.cc:21-36 | a request on a follower is answered once and never queued, on a leader it is queued and not answered; a missing local peer halts |
| PeerImpl.DiskStorage.Get | src/storage/disk_storage.cc:32-39 | the value stored, or the stop on a missing key |
| PeerImpl.DiskStorage.Put | src/storage/disk_storage.cc:41-46 | the key holds the value, the others are unchanged |
| PeerImpl.DiskStorage.Del | src/storage/disk_storage.cc:48-53 | the key is gone, present or not, the others are unchanged |
| PeerImpl.ClosureGuard.constructor | third-party/jrpc/include/jrpc/net/rpc/closure_guard.h:13-15 | the guard holds the closure |
| PeerImpl.ClosureGuard.Destroy | third-party/jrpc/include/jrpc/net/rpc/closure_guard.h:17-21 | a held closure runs once, a released one does not |
| PeerImpl.ClosureGuard.Reset | third-party/jrpc/include/jrpc/net/rpc/closure_guard.h:23-28 | the closure held runs once and the new one is held |
| PeerImpl.ClosureGuard.Release | third-party/jrpc/include/jrpc/net/rpc/closure_guard.h:30-34 | the closure leaves the guard without running |
| PeerImpl.ClosureGuard.Swap | third-party/jrpc/include/jrpc/net/rpc/closure_guard.h:38-38 | two guards exchange their closures, running none |
| Refinement.SubmitStep | src/service/kv_service.cc:21-36 | a request handled by the service is a submit step of the cluster |
| Refinement.ApplyStep | src/peer/peer.cc:182-195 | an entry handled by the peer is an apply step of the cluster |
| Refinement.ReadyRun | src/peer/peer.cc:123-143 | a Ready handled by the peer is a run of apply steps of the cluster, one for each committed entry up to the one that halts |
| Refinement.RestartStep | src/peer/peer.cc:15-59 | a process started on an existing database is a node after a restart step |
| Members.MembersRoundTrip | src/peer/peer.cc:99-121 | printing any non-empty list of members with distinct hosts in the documented format and parsing it gives back exactly those members |
| Members.TextAcceptedExactly | src/peer/peer.cc:102-119 | for every text: it is accepted if and only if each part between bars has exactly three commas and no two parts have the same host id, and the table is given by the four fields of the parts, in their order |
| Members.AcceptedExactly | src/peer/peer.cc:107-120 | the loop over the parts succeeds if and only if every part describes a member and no host repeats, and the table is then exactly the members |
| Members.SplitJoin | src/peer/peer.cc:102-109 | splitting undoes joining for parts free of the separator |
| Members.JoinSplit | src/peer/peer.cc:102-109 | joining undoes splitting; there is one part more than there are separators, and no part contains one |
| Members.AtoiReads | src/peer/peer.cc:113-118 | numbers are read behind blanks and a sign, up to the first non-digit |
| ObjPoolModel.GetIndexExact | third-party/jrpc/include/jrpc/base/obj_pool.h:86-98 | for every 64-bit address, those below the base included: the index is i exactly for the address of slot i, and each error code has its own meaning |
| ObjPoolModel.RoundUpIsLeast | third-party/jrpc/include/jrpc/base/obj_pool.h:31-31 | the allocated size is the least multiple of the alignment that fits |
| ObjPoolModel.SlotsAreDisjoint | third-party/jrpc/include/jrpc/base/obj_pool.h:41-44 | distinct slots occupy disjoint byte ranges inside the block |
| ObjPoolModel.PartitionHolds | third-party/jrpc/include/jrpc/base/obj_pool.h:59-133 | in every history the free list holds distinct slots, exactly those whose bit is clear, and only an invalid release stops the process |
| ObjPoolModel.FreeKeepsPartition | third-party/jrpc/include/jrpc/base/obj_pool.h:69-73 | a release is fatal exactly for a slot not in use, and otherwise there is room for the push |
| ObjPoolModel.NotHandedOutTwice | third-party/jrpc/include/jrpc/base/obj_pool.h:59-68 | a slot handed out is not handed out again before it is released |
| ObjPoolModel.SlotConservation | third-party/jrpc/include/jrpc/base/obj_pool.h:100-133 | per slot, allocations less releases is the slot's bit |
| ObjPoolModel.SlotCounted | third-party/jrpc/include/jrpc/base/obj_pool.h:115-131 | the counters of a slot are its allocations and releases modulo 2^64 |
| ObjPoolModel.LiveConservation | third-party/jrpc/include/jrpc/base/obj_pool.h:59-73 | summed over the slots, allocations less releases is the number of slots not free |
| ObjPoolModel.TotalsCounted | third-party/jrpc/include/jrpc/base/obj_pool.h:101-120 | the pool's own counters are those sums modulo 2^64 |
| ObjPoolModel.RefusalsCounted | third-party/jrpc/include/jrpc/base/obj_pool.h:60-63 | the failure counter is the number of allocations on an empty pool modulo 2^64 |
| ObjPoolModel.WordIsModulo | third-party/jrpc/include/jrpc/base/obj_pool.h:141-143 | n increments of a 64-bit counter give n modulo 2^64 |
| ObjPoolModel.LowWaterMark | third-party/jrpc/include/jrpc/base/obj_pool.h:102-104 | the low-water mark is the pool size less the most objects ever live, or untouched if none has been |
| ObjPoolModel.PeakAfterFirstSuccess | third-party/jrpc/include/jrpc/base/obj_pool.h:102-104 | an object has been live if and only if an allocation has succeeded |
| ObjPoolModel.MallocUndoesFree | third-party/jrpc/include/jrpc/base/obj_pool.h:59-73 | allocating right after a release returns the same slot and restores free list and bitmap |
| ObjPoolModel.FreeUndoesMalloc | third-party/jrpc/include/jrpc/base/obj_pool.h:59-73 | releasing right after an allocation restores free list and bitmap |
| ObjPoolImpl.ObjPool.constructor | third-party/jrpc/include/jrpc/base/obj_pool.h:21-45 | all slots free in address order, all counters at their start |
| ObjPoolImpl.ObjPool.Malloc | third-party/jrpc/include/jrpc/base/obj_pool.h:59-68 | null on an empty pool, otherwise the address of the slot freed last; the arrays follow the history model and no check fails |
| ObjPoolImpl.FirstMallocs | third-party/jrpc/include/jrpc/base/obj_pool.h:41-65 | the k-th allocation from a fresh pool returns the address of the k-th slot from the end |
| ObjPoolImpl.ObjPool.Free | third-party/jrpc/include/jrpc/base/obj_pool.h:69-73 | any address: fatal if and only if it is not the start of a slot in use, otherwise the arrays follow the history model |
| ObjPoolImpl.ObjPool.MallocCheckAndSet | third-party/jrpc/include/jrpc/base/obj_pool.h:100-117 | succeeds exactly for a slot not in use, and what it changes |
| ObjPoolImpl.ObjPool.FreeCheckAndSet | third-party/jrpc/include/jrpc/base/obj_pool.h:119-133 | succeeds exactly for a slot in use, and what it changes |
| QueueCalls.PutsAreCalls | third-party/jrpc/include/jrpc/base/blocking_queue.h:17-20 | in every interleaving, every value has been put as often as `put` was called with it, less the calls that have not reached the push |
| QueueCalls.PutsAreInOrder | third-party/jrpc/include/jrpc/base/blocking_queue.h:17-20 | the record of values put is the sequence of the pushes, in the order in which they happen |
| QueueCalls.PutDelivers | third-party/jrpc/include/jrpc/base/blocking_queue.h:17-20 | from a call `put(x)` on, the thread is on its way to the push of x, or x is in the queue or has been taken |
| QueueCalls.TakesAreReturns | third-party/jrpc/include/jrpc/base/blocking_queue.h:30-40 | every value has been taken as often as a `take` has returned it or is about to |
| QueueCalls.MutexIsHeldBriefly | third-party/jrpc/include/jrpc/base/thread/mutex.h:63-101 | while a thread owns the mutex throughout, it takes at most four steps, in every interleaving |
| QueueCalls.OwnerCanStep | third-party/jrpc/include/jrpc/base/thread/mutex.h:63-101 | the owner of the mutex can always take its next step |
| QueueCalls.EmptyTestSleeps | third-party/jrpc/include/jrpc/base/blocking_queue.h:33-35 | a `take` that finds the queue empty sleeps without the mutex before it tests again or does anything else |
| QueueCalls.PutAlone | third-party/jrpc/include/jrpc/base/blocking_queue.h:17-22 | with nobody asleep and nobody interfering, `put(x)` returns after seven steps and all it has done is to add x at the end |
| QueueCalls.TakeAlone | third-party/jrpc/include/jrpc/base/blocking_queue.h:30-40 | with nobody interfering, `take` on a queue that is not empty returns the first value, and all it has done is to remove it |
| QueueCalls.TakeWaits | third-party/jrpc/include/jrpc/base/thread/condition.h:18-21 | on an empty queue `take` goes to sleep with the mutex free and nothing else changed |
| QueueCalls.WokenTakes | third-party/jrpc/include/jrpc/base/blocking_queue.h:33-40 | a consumer that was woken up and finds a value returns the first one |
| QueueCalls.SizeAlone | third-party/jrpc/include/jrpc/base/blocking_queue.h:42-45 | with nobody interfering, `size` returns the length of the queue and changes nothing |
| BlockingQueue.NoLostWakeup | third-party/jrpc/include/jrpc/base/blocking_queue.h:17-40 | while a consumer sleeps, the values in the queue are at most the consumers that will look again plus the producers that will notify |
| BlockingQueue.FirstInFirstOut | third-party/jrpc/include/jrpc/base/blocking_queue.h:17-40 | values leave in the order in which they were pushed, and the assertion after the wait loop holds |
| BlockingQueue.HolderIsOwner | third-party/jrpc/include/jrpc/base/thread/mutex.h:63-101 | at every assignment a nonzero holder is the owner of the mutex, and it names the calling thread from the end of lock to the start of unlock |
| BlockingQueue.TakeReturnsInOrder | third-party/jrpc/include/jrpc/base/blocking_queue.h:30-40 | what `take` returns is the last value taken and, among all values ever put, the one in the place of this take |
| BlockingQueue.SizeIsExact | third-party/jrpc/include/jrpc/base/blocking_queue.h:42-45 | what `size` returns is the number of values put less the number taken, from the read until the mutex is released |
| BlockingQueue.NoDeadlock | third-party/jrpc/include/jrpc/base/thread/condition.h:18-26 | as long as a thread is inside an operation and not asleep, some such thread can act |
| BlockingQueue.StepKeepsInv | third-party/jrpc/include/jrpc/base/blocking_queue.h:17-45 | every step of every thread keeps the invariant |

## Left out

- Raft itself (elections, replication, quorums): only the environment conditions above.
- Sending and receiving messages, RPC stubs, timers, the event loop, flags and mains.
- Configuration changes (an empty body in the source), snapshots and persistence of Raft state.
- Requests with the invalid command type, which would be proposed and never answered.
- The inside of leveldb, unsynced writes and the protobuf encoding.
- Responses as shared objects: an answer is the value the response holds when its closure runs, so aliasing of responses is not modelled.
- PeerImpl.Peer.constructor: does not model the Raft configuration it builds or the fatal checks on the initial state, the snapshot and the storage; it states the database, the queue and the member table.
- PeerImpl.Peer.HandleRaftReady: does not model appending to the in-memory storage, sending messages and `Advance`, which do not touch the peer's own state.
- `BlockingQueue`, `Condition` and `MutexLock` are modelled on values, as steps of a state machine, because their point is the interleaving of threads.
- PeerImpl.Peer.InsertMembers: the parts are parsed before the loop instead of one by one inside it; nothing else happens between the two.
- Theorems.CommitsOnItsBranch: its continuations are those of the environment above, in which a leader's log may be committed without counting a quorum.
- PeerImpl.KvService.KvOpCb: does not say when a queued request is answered; answers depend on Raft making progress, and no liveness is claimed.
- Members.AtoiReads: values outside the range of `int` are undefined behaviour in the source; the model saturates and truncates them but states nothing about them.
- `Condition::notifyAll` and `waitForSeconds`, which the queue does not use.
- Object construction and destruction inside the pool, failed allocation of the block, and builds without assertions.
- Buffers, memory pools, logging, time helpers and the tests of code that is not in the repository.
