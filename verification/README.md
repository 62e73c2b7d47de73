# Verified model of libp2p-raft

libp2p-raft replicates a log over libp2p. A synchronous engine (`RaftEngine`) takes ticks, messages, failures and
proposals and returns actions; a behaviour (`RaftBehaviour`) carries the actions out, files requests under correlation
ids, matches answers to them, times them out and keeps a timer armed; a storage holds the term, the vote and the log.
The algorithm is the one of Ongaro and Ousterhout, "In Search of an Understandable Consensus Algorithm" (USENIX ATC
2014), without snapshots and membership change.

## How the project is built

Three layers, each proved against the next.

* **Code.** `MemoryStorage`, `RaftEngine` and `RaftBehaviour` are classes whose methods update fields in place, with the
  loops of the source: the persist loop, the follower's merge, the apply loop, the downward commit scan, replication,
  expiry and polling. Each method is proved to do, state and outputs alike, what a function says.
* **Functions.** `LogSpec`, `EngineSpec` and `NodeSpec` are those functions, on values. `Cluster` composes nodes into a
  transition system: a map of nodes, the set of all requests and of all replies ever sent, and everything ever reported.
  A step is a tick, a proposal, the delivery of any request or reply ever sent, a failure or time-out of a request, a
  connection, a disconnection, or a restart that keeps the storage. Messages may be lost, delayed, reordered and
  repeated.
* **Protocol.** `Protocol` is Raft as a history: who voted for whom with which log, who reigned in a term and what that
  reign's log grew to, who acknowledged how much of it, and how far it was committed. `Moves` shows that seven moves
  (advance, register, vote, elect, extend, accept, commit) keep its invariant; leader completeness is proved there.
  `Coupling` says how a cluster and a history correspond, and `Events.StepKeeps` that every event keeps them together.

`Handling` says, in terms of the message and the state, what each message and each tick does to an engine: the term
adopted, the answer, the vote, the books, the timers. `Conduct` and `Requests` lift this to runs of the cluster:
answers and reports there, the life of a request here. The other theorems about all runs are in `Safety`, `Applying`,
`Hints`, `Guarantees`, `Progress`, `CommitRule`, `CatchUp`, `Convergence`, `Committing` and `Exactness`.
`Reached(c, g)` says that `c` is in the least set of states that has the freshly started clusters, with one common,
non-empty voter set, and is closed under the events that the guard `g` permits; `Reachability.ReachedIffRun` shows
that these are the ends of the runs, and `Follows(c, c', g)` that `c'` is a possible future of `c`. `Guards` compares
the guards. `Tenure` follows one leadership and its books on one peer through every future. `Filing`, `Elections` and
`Divergence` build futures: how appends come to be pending, how a node can win, and how a cluster can come apart.
`Hosting` closes the circle: whatever a behaviour does when it is polled is a possible future of the cluster.

## What holds in every run, and what needs a guard

Answers to an append are credited by what the engine remembers as the last append to that peer
(src/raft/engine.rs:536-543). Requests still pending when a leader steps down are not withdrawn, so a node can lead
again while an append of its earlier leadership is still unanswered. The theorems divide by what such a leftover can do.

* **Every run.** Election safety, one vote per term, log matching, leader hints, storage safety, the order of the
  books, the next index after a success, gapless application, "no peer is stuck", "a leader commits all it can" and
  everything in `Handling`, `Conduct`, `Requests` and `Progress`. A cluster with a single voter never elects it,
  because votes are counted only when an answer arrives (`Guarantees.LoneVoterNeverLeads`).
* **One leadership and one peer.** Sound match indices, the one-deep pipeline and catch-up hold in a leadership that
  *began clear* of that peer: at some moment of it no append to the peer was pending and the peer was credited with
  nothing. Other leaderships, of the same node or of others, do not matter. A caller can read this off the pending
  requests when the node becomes leader, and it is exact: `Exactness.GuardIsExact` proves that, when a node wins and the
  peer is in no later term, match indices for the peer are sound in every future of the leadership if and only if no
  append to it is pending.
* **Whole runs.** State machine safety, "committed is forever", "leaders are complete" and "committed is never
  truncated" combine many leaderships. They hold in runs without *unacknowledged commits* (the guard `Acked`): a leader
  may have leftovers and wrong match indices, as long as whatever it commits has, in its term, been acknowledged by
  enough voters, itself included, to have one in common with every majority. `Guards.WhatSuffices` gives three
  conditions that can be checked, each of which makes a run such a run: nobody is *over-credited*, that is, credited
  with more than the append it answered reached (`Earned`; the host has that append on file); no node becomes leader
  while an append of its own is pending (`Clean`); or the cluster has two voters.
* **No guard at all.** `Divergence.SizeDecides`: whatever the configuration, the state machines of a cluster are safe in
  every run if and only if it has at most two voters. `Leftover` is one such run of three nodes, event by event: a peer
  is credited with an entry it does not have, two nodes apply different commands at index 2, and a committed entry is
  truncated.

## Where the code and its documentation differ

The model follows the code.

* README.md:86 and README.md:159 call `persist` atomic. It stops at the first entry that leaves a gap and keeps what
  came before it (src/storage/memory.rs:75-91; `LogSpec.PersistStopsHalfWay` is an input). A batch succeeds exactly when
  every index lies between 1 and one past the entry before it (`LogSpec.PersistSucceedsIff`), and a batch that fails
  leaves the log as it was exactly when what came before the failure replays the log's own entries
  (`LogSpec.FailedPersistUnchangedIff`). Batches with consecutive indices, the only ones the engine passes, are kept
  whole or not at all (`LogSpec.ContiguousPersistIsAtomic`).
* README.md:120 promises that a request that times out is tried again and then reported as failed. It is not sent again,
  and only failures that the handler or a dial reports become events: the time-out of a request is silent
  (src/behaviour.rs:530-541; `Requests.FailuresAreReported`, `RaftBehaviour.RaftBehaviour.ExpireOverdue`).
* README.md:163 promises no busy polling. Heartbeats never move a leader's election deadline, so once it has passed,
  `poll` finds something due on every pass, and with a timer that goes off exactly at its deadline it never returns
  `Pending` (`Progress.LeaderDeadlineAfterTick`, `RaftBehaviour.RaftBehaviour.Poll`).

## Model

| member | source | states |
|---|---|---|
| `Membership.New` | src/raft/membership.rs:11-15 | the voter set holds exactly the configured ids, each once |
| `Membership.Without` | src/raft/membership.rs:33-39 | the other voters are all voters but the node itself |
| `Membership.WithoutIsDistinct` | src/raft/membership.rs:33-39 | no other voter is listed twice |
| `Membership.MajoritiesMeet` | src/raft/membership.rs:29-31 | two sets of at least a quorum of voters share a voter |
| `Membership.LargeSetsMeet` | src/raft/membership.rs:29-31 | so do any two sets of more voters together than there are |
| `LogSpec.PersistIsKeepThenAppend` | src/storage/memory.rs:66-95 | a contiguous batch starting at most one past the end keeps everything before it and then appends it |
| `LogSpec.PersistKeepsIndices` | src/storage/memory.rs:66-95 | slot i keeps holding index i + 1, whatever is persisted |
| `LogSpec.ContiguousPersistIsAtomic` | src/storage/memory.rs:66-95 | a contiguous batch succeeds exactly when it leaves no gap, and otherwise changes nothing |
| `LogSpec.PersistSucceedsIff` | src/storage/memory.rs:66-95 | any batch is persisted without error exactly when every index lies between 1 and one past the entry before it, the first entry being measured against the end of the log |
| `LogSpec.PersistStopsAt` | src/storage/memory.rs:75-91 | the first entry that does not fit stops the batch: everything before it is kept, and the error names it |
| `LogSpec.FailedPersistUnchangedIff` | src/storage/memory.rs:75-91 | a failed batch leaves the log as it was exactly when the part before the failure replays the log's own entries |
| `LogSpec.PersistStopsHalfWay` | src/storage/memory.rs:75-91 | a batch that fails and yet changes the log: persisting is not atomic in general |
| `LogSpec.MergeSpec` | src/raft/engine.rs:443-468 | the follower's log is unchanged if the batch agrees with it, and otherwise becomes the agreeing prefix plus the rest of the batch |
| `LogSpec.MergeIsIdempotent` | src/raft/engine.rs:443-468 | merging the same batch again changes nothing |
| `LogSpec.MergeAdoptsSource` | src/raft/engine.rs:443-468 | merging a batch cut from a leader's log leaves the leader's prefix, or the follower's log if that already contains it |
| `MemoryStorage.MemoryStorage.constructor` | src/storage/memory.rs:13-19 | an empty storage in term 0 without a vote |
| `MemoryStorage.MemoryStorage.Entry` | src/storage/memory.rs:33-38 | looks an entry up by its own index |
| `MemoryStorage.MemoryStorage.LastIndexTerm` | src/storage/memory.rs:40-45 | the last entry's index is the number of entries |
| `MemoryStorage.MemoryStorage.TruncateFrom` | src/storage/memory.rs:47-56 | keeps exactly the entries before the given index |
| `MemoryStorage.MemoryStorage.Persist` | src/storage/memory.rs:66-95 | replaces the hard state if one is given and persists the batch entry by entry, reporting the first bad index |
| `RaftEngine.RaftEngine.constructor` | src/raft/engine.rs:55-75 | a follower that knows no leader, over whatever term, vote and log the storage holds |
| `RaftEngine.RaftEngine.NextDeadline` | src/raft/engine.rs:129-134 | the next moment the engine wants a tick |
| `RaftEngine.RaftEngine.Propose` | src/raft/engine.rs:78-91 | a leader appends the command just past its log and replicates; others refuse and change nothing |
| `RaftEngine.RaftEngine.Tick` | src/raft/engine.rs:136-161 | due elections start and due heartbeats go out; otherwise nothing happens |
| `RaftEngine.RaftEngine.HandleRpc` | src/raft/engine.rs:163-205 | every message has the specified effect and answers |
| `RaftEngine.RaftEngine.HandleRpcFailure` | src/raft/engine.rs:207-212 | a failed append frees its peer for the next one |
| `RaftEngine.RaftEngine.StartElection` | src/raft/engine.rs:214-232 | stands in the next term with a stored vote for itself and asks everyone |
| `RaftEngine.RaftEngine.BecomeFollower` | src/raft/engine.rs:249-267 | adopts a later term with no vote and forgets all leader state |
| `RaftEngine.RaftEngine.BecomeLeader` | src/raft/engine.rs:269-291 | leads with fresh books for every other voter |
| `RaftEngine.RaftEngine.ResetBooks` | src/raft/engine.rs:279-284 | every other voter is next sent what follows the log and is known to hold nothing |
| `RaftEngine.RaftEngine.LogIsUpToDate` | src/raft/log.rs:5-13 | the election restriction on the last term and index |
| `RaftEngine.RaftEngine.HandleRequestVote` | src/raft/engine.rs:297-350 | the vote, what is stored about it, and the answer |
| `RaftEngine.RaftEngine.HandleRequestVoteResp` | src/raft/engine.rs:352-381 | votes are counted once per voter, a majority makes a leader, and a later term is adopted |
| `RaftEngine.RaftEngine.HandleAppendEntries` | src/raft/engine.rs:383-485 | role change, consistency check, merge, commit and answer, in order |
| `RaftEngine.RaftEngine.TruncateConflict` | src/raft/engine.rs:443-463 | the loop finds where log and batch part and cuts the log there |
| `RaftEngine.RaftEngine.MergeEntries` | src/raft/engine.rs:443-468 | loop and persist together compute the merged log |
| `RaftEngine.RaftEngine.AdvanceCommitAndApply` | src/raft/engine.rs:487-510 | the commit index only rises, and what became applicable is handed out in order |
| `RaftEngine.RaftEngine.HandleAppendEntriesResp` | src/raft/engine.rs:512-568 | successes are credited by the remembered append, rejections step the next index back |
| `RaftEngine.RaftEngine.ReplicateActions` | src/raft/engine.rs:570-578 | one append to every idle peer |
| `RaftEngine.RaftEngine.SendAppendEntriesTo` | src/raft/engine.rs:580-588 | at most one unanswered append to a peer, remembered by its extent |
| `RaftEngine.RaftEngine.BuildAppendEntries` | src/raft/engine.rs:590-618 | everything from the peer's next index to the end of the log |
| `RaftEngine.RaftEngine.MaybeCommit` | src/raft/engine.rs:620-653 | the downward scan finds the highest committable index |
| `RaftEngine.RaftEngine.CountHolders` | src/raft/engine.rs:638-643 | the leader and every other voter known to hold an index |
| `RaftBehaviour.RaftBehaviour.constructor` | src/behaviour.rs:82-109 | a fresh node whose timer is armed |
| `RaftBehaviour.RaftBehaviour.ArmSleep` | src/behaviour.rs:205-209 | the timer goes off at the deadline, or at once if that has passed |
| `Handling.TermIsAdopted` | src/raft/engine.rs:297-568 | whatever request or answer a node has handled, it is in the later of its own term and the message's, a follower if that was not its own, and only a vote that is asked for changes the stored vote within a term |
| `Handling.NoiseIsIgnored` | src/raft/engine.rs:362-373 | late answers, votes that no candidate waits for, news of appends that no leader remembers, and snapshot messages change nothing |
| `Handling.RequestsAreAnswered` | src/raft/engine.rs:297-485 | every request, a stale one too, is answered to its sender, in kind and in the term the node is then in; nothing else is sent |
| `Handling.AnswersAreNot` | src/raft/engine.rs:352-568 | an answer leads to no message but another append to its sender, by a leader |
| `Handling.VoteGrantedIff` | src/raft/engine.rs:309-347 | a vote is granted exactly to a candidate that is not behind, whose log the voter's does not outrank, if the voter has voted for nobody else in that term; it is stored, and a refusal stores nothing but the later term |
| `Handling.ElectedIff` | src/raft/engine.rs:362-380 | an answer of no later term makes a leader exactly if it completes a candidate's quorum, with fresh books; any other at most adds its vote |
| `Handling.AppendAcceptedIff` | src/raft/engine.rs:398-484 | an append is accepted exactly if it is not stale and the logs meet where it begins; the log, commit index, role, leader and answer in either case |
| `Handling.OneAppendCopies` | src/raft/engine.rs:590-618 | an append to a follower whose log is what the leader takes it for makes it a copy of the leader's log, told of everything committed |
| `Handling.SuccessMovesUp` | src/raft/engine.rs:536-552 | a success credits the peer with what the remembered append reached, sets its next index just past that, and leaves every other peer's books alone |
| `Handling.RejectionMovesDown` | src/raft/engine.rs:553-565 | a rejection of the remembered append steps the next index back by one, never to or below the match index, and sends again; a stale one only clears the mark |
| `Handling.TimersRestartIff` | src/raft/engine.rs:286-338 | a message restarts the election timer, for the whole time-out and jitter, exactly if it wins the node's vote, is an append that is not stale, or makes it leader; only the last starts the heartbeat |
| `Handling.StandingRestartsTimer` | src/raft/engine.rs:214-232 | standing leads to the next term with the own vote stored, asks everyone, and gives the election the whole time-out and jitter |
| `Handling.BeatingRestartsTimer` | src/raft/engine.rs:136-161 | a heartbeat restarts its own timer and not the other's, and a tick before its time changes nothing |
| `Handling.StartingWaits` | src/raft/engine.rs:55-75 | a started node is a follower that stands no sooner than after the whole time-out and jitter |
| `Conduct.ReachedInRole` | src/raft/engine.rs:234-291 | in every run only leaders have books and only candidates votes, whoever is not a follower has voted for itself, a leader names itself and a candidate nobody |
| `Conduct.ChangesAreReported` | src/behaviour.rs:236-290 | in every run a node reports role, term and leader exactly when an event other than a restart has changed its role or term, and as they then are |
| `Conduct.EveryRequestIsAnswered` | src/behaviour.rs:464-489 | in every run a delivered request yields one reply, of the right kind, in the term the answerer is then in, and no request |
| `Conduct.AnswerLevelsTerms` | src/raft/engine.rs:352-528 | in every run, when the answer to a pending request is delivered, the sender is in the later of the two terms, a follower without a leader if that was not its own |
| `Requests.RequestsGoOutIff` | src/behaviour.rs:236-336 | in every run a request goes out exactly if the engine asks for it and the peer is connected, and never while answering a request |
| `Requests.TicksSendIff` | src/raft/engine.rs:136-161 | in every run a tick sends exactly, to connected voters: the request for a vote if an election is due, the missing entries to idle ones if a heartbeat is due |
| `Requests.ProposalsSendIff` | src/behaviour.rs:132-140 | in every run a leader's proposal lengthens its log by the command and sends it, with what precedes it, exactly to the connected idle voters; anyone else's does nothing |
| `Requests.PendingUntilEnded` | src/behaviour.rs:338-362 | in every run a request stays pending, unchanged, exactly until it is answered or fails, the peer's last connection closes, or the node restarts |
| `Requests.LossesFreeIff` | src/behaviour.rs:338-362 | in every run a failure, time-out or lost connection frees exactly the peers that it ends a pending append to, and does nothing else to the engine |
| `Requests.FailuresAreReported` | src/behaviour.rs:338-350 | a failure is reported exactly if the host is told to report it and the request was pending |
| `Requests.WaitsForConnected` | src/behaviour.rs:420-433 | in every run whatever peer a request is pending to, or is marked in flight, is connected |
| `RaftBehaviour.Opened` | src/behaviour.rs:412-419 | a connection is open afterwards exactly if it was or is the new one |
| `RaftBehaviour.Closed` | src/behaviour.rs:420-426 | a connection is open afterwards exactly if it was and is not the one that closed |
| `RaftBehaviour.RaftBehaviour.EarliestWake` | src/behaviour.rs:211-220 | the first of the engine's deadline and all pending expiries |
| `RaftBehaviour.RaftBehaviour.ExecuteActions` | src/behaviour.rs:236-294 | actions are carried out in order, an answer going out once on the channel of its request |
| `RaftBehaviour.RaftBehaviour.SendRpc` | src/behaviour.rs:296-336 | files and sends a request, or fails it at once for a peer that is not connected |
| `RaftBehaviour.RaftBehaviour.FailPending` | src/behaviour.rs:338-350 | a pending request fails once, and the engine hears of it |
| `RaftBehaviour.RaftBehaviour.FailPeerPending` | src/behaviour.rs:352-362 | exactly the requests pending to a peer fail |
| `RaftBehaviour.RaftBehaviour.Propose` | src/behaviour.rs:132-140 | proposes, carries the actions out, and leaves the timer armed in time |
| `RaftBehaviour.RaftBehaviour.OnRequest` | src/behaviour.rs:464-489 | handles a request and answers on its channel, which is gone afterwards |
| `RaftBehaviour.RaftBehaviour.OnResponse` | src/behaviour.rs:490-499 | an answer counts only while its request is pending, and only once |
| `RaftBehaviour.RaftBehaviour.OnFailure` | src/behaviour.rs:500-512 | the handler's failure of a request fails it here; a failure without a correlation id only raises an event |
| `RaftBehaviour.RaftBehaviour.OnConnectionEstablished` | src/behaviour.rs:412-419 | the connection joins those of its peer, and nothing else changes |
| `RaftBehaviour.RaftBehaviour.OnConnectionClosed` | src/behaviour.rs:420-433 | while another connection to the peer is open nothing changes but the set of connections; otherwise exactly what is pending to the peer fails; no deadline is missed though the timer is left alone |
| `RaftBehaviour.RaftBehaviour.OnDialFailure` | src/behaviour.rs:434-451 | a failed dial fails what is pending to that peer |
| `RaftBehaviour.RaftBehaviour.Overdue` | src/behaviour.rs:531-538 | exactly the requests filed at least the time-out ago |
| `RaftBehaviour.RaftBehaviour.ExpireOverdue` | src/behaviour.rs:530-541 | those fail, silently, and every request still pending has time left |
| `RaftBehaviour.RaftBehaviour.Poll` | src/behaviour.rs:518-567 | a queued event is handed out first; with none queued no request overdue at the start is still pending afterwards and the engine has been ticked if it was due; whenever it returns Pending nothing is queued and the timer is set, ahead of now, no later than the engine's deadline and every pending expiry; a leader past its election deadline never gets there |
| `RaftBehaviour.PollKeepsLeader` | src/behaviour.rs:530-557 | nothing a poll does ends a leadership or moves its election deadline |
| `Protocol.LogMatching` | src/raft/engine.rs:421-468 | sourced logs that share a term at an index share everything up to it |
| `Protocol.TermsAscend` | src/raft/engine.rs:590-618 | terms never decrease along a log |
| `Protocol.LeaderCompleteness` | src/raft/engine.rs:620-653 | what a term committed, once enough voters to meet every majority had acknowledged it, is in the log every later leader was elected with |
| `Moves.TermIsVacant` | src/raft/engine.rs:375-378 | a candidate backed by a majority finds its term without a leader |
| `Events.StepKeeps` | src/raft/engine.rs:163-205 | every event of the cluster keeps it in correspondence with a Raft history that only moved forward |
| `Reachability.ReachedIffRun` | src/behaviour.rs:410-567 | the reached states are exactly the ends of runs of events from a fresh cluster |
| `Reachability.FollowsIffRun` | src/behaviour.rs:410-567 | the possible futures of a cluster are exactly the ends of its runs |
| `Safety.ReachedCoupled` | src/raft/engine.rs:136-212 | every reached cluster corresponds to a Raft history |
| `Safety.FutureCoupled` | src/raft/engine.rs:136-212 | whatever becomes of a cluster has a history that goes on from its own: reigns and committed prefixes only grow |
| `Hosting.PollIsFuture` | src/behaviour.rs:523-566 | what a poll does to its node is a possible future of the cluster under every guard, in which no other node has moved, and everything it reports is reported there |
| `Safety.ElectionSafety` | src/raft/engine.rs:375-378 | over a whole run, restarts included, at most one node becomes leader of a term |
| `Safety.OneVotePerTerm` | src/raft/engine.rs:324-347 | over a whole run, restarts included, a node grants its vote in a term to at most one candidate, and while it is in that term this is the vote it has stored |
| `Safety.LogsMatch` | src/raft/engine.rs:421-468 | any two logs with an entry of the same index and term agree up to it |
| `Safety.LogsAreOrderly` | src/storage/memory.rs:75-91 | indices are slot numbers, terms never decrease along a log and never exceed the node's term |
| `Safety.AppendsMatchLogs` | src/raft/engine.rs:443-463 | any log and any append ever sent that share a term share everything the append says up to there |
| `Safety.AppendsMatchAppends` | src/raft/engine.rs:590-618 | any two appends ever sent that share a term at an index say the same up to there, previous terms included |
| `Safety.StateMachineSafety` | src/raft/engine.rs:487-510 | no two nodes ever apply different entries at one index, in any run without unacknowledged commits |
| `Safety.AppliedComparable` | src/raft/engine.rs:487-510 | what two nodes have applied are prefixes of one another, in such runs |
| `Applying.AppliedInOrder` | src/raft/engine.rs:487-510 | in every run, what a node handed out since its start is entry 1, 2 and so on, each once, up to the commit index, which is the apply index |
| `Applying.AppliedIsReported` | src/behaviour.rs:287-290 | in every run, whatever a node has applied it has reported |
| `Safety.ApplyIsGapless` | src/raft/engine.rs:487-510 | without unacknowledged commits what was applied is moreover exactly the node's log up to the commit index |
| `Safety.CommittedIsForever` | src/raft/engine.rs:451-457 | without unacknowledged commits a node's log up to its commit index reads the same ever after |
| `Safety.LeadersAreComplete` | src/raft/engine.rs:620-653 | without unacknowledged commits, what any node has committed is in the log of everyone who leads its term or a later one, then and ever after |
| `Guards.OnlyCreditsMoveBooks` | src/raft/engine.rs:534-544 | whatever happens to a leader that stays one, only a credit moves its match indices or its commit index |
| `Guards.EarnedIsAcked` | src/raft/engine.rs:536-543 | where nobody is over-credited, every match index has been acknowledged, and there is no unacknowledged commit |
| `Guards.CleanIsEarned` | src/raft/engine.rs:269-291 | where no leader wins with an append of its own pending, nobody is over-credited |
| `Guards.TwoIsAcked` | src/raft/engine.rs:620-653 | in a cluster of two no commit is unacknowledged, whatever is over-credited |
| `Guards.WhatSuffices` | src/raft/engine.rs:536-543 | each of these three makes a run, and every future it permits, one without unacknowledged commits |
| `Divergence.ThreeCanDiverge` | src/raft/engine.rs:536-543 | any cluster of three or more voters has a run in which two nodes apply different entries at one index |
| `Divergence.SizeDecides` | src/raft/engine.rs:536-543 | without any guard, state machine safety holds in every run of a cluster if and only if it has at most two voters |
| `Hints.HintedLeaderWon` | src/raft/engine.rs:410-416 | whoever a node takes for the leader is the one and only winner of that node's term |
| `Hints.HintsAgree` | src/raft/engine.rs:249-267 | two nodes in the same term never name different leaders |
| `Hints.LeadersHaveWon` | src/raft/engine.rs:269-291 | a leader is the one and only winner of its term |
| `Guarantees.CommittedNeverTruncated` | src/raft/engine.rs:451-457 | without unacknowledged commits a conflict with an acceptable append lies beyond everything committed, so the debug assertion never fires |
| `Guarantees.AppendsAreContiguous` | src/raft/engine.rs:598-604 | every append carries consecutive indices from just after its previous index |
| `Guarantees.PersistNeverFails` | src/raft/engine.rs:465-468 | no swallowed storage error ever occurs in a merge |
| `Guarantees.LateAppendIsHarmless` | src/raft/engine.rs:443-468 | after an accepted append, another of the same term that reaches no further changes nothing |
| `Guarantees.SameTermAppendOnlyExtends` | src/raft/engine.rs:443-468 | an append of the term in which the log ends never shortens it |
| `Guarantees.LeaderCanAlwaysBuild` | src/raft/engine.rs:590-618 | a leader can build an append for every other voter, in every run |
| `Guarantees.BooksAreOrdered` | src/raft/engine.rs:531-561 | match index + 1 <= next index <= last index + 1, in every run |
| `Tenure.LeaderInStep` | src/raft/engine.rs:163-212 | every event of a node that goes on leading keeps its books on a peer in step with its requests and with what the peer acknowledged |
| `Tenure.FutureInStep` | src/raft/engine.rs:163-212 | so does every future in which it leads the same term, whatever happened elsewhere |
| `Guarantees.MatchIndexIsSound` | src/raft/engine.rs:531-544 | in a leadership that began clear of a peer the peer's log agrees with the leader's through the match index until the peer moves to a later term, and before the peer joins the term the match index is zero |
| `Guarantees.CleanRunsBeginClear` | src/raft/engine.rs:269-291 | in a clean run every leadership begins clear of every peer |
| `Guarantees.NoPeerIsStuck` | src/raft/engine.rs:580-588 | whoever is marked in flight has an append of the current term pending, in every run |
| `Convergence.AnswerClearsMark` | src/raft/engine.rs:534-567 | the answer to that append frees the peer, or the mark now stands for an append filed only then |
| `Convergence.EveryEndFrees` | src/behaviour.rs:338-362 | however that append stops being pending while its sender goes on leading (answer, failure, time-out, lost connection), the same holds |
| `Guarantees.OneAppendInFlight` | src/behaviour.rs:296-350 | from any moment of a leadership at which no append to a peer is pending, the peer is in flight exactly when an append to it is pending, and that append is the only one and is the remembered one |
| `Guarantees.NoRejectIsStale` | src/raft/engine.rs:553-557 | from such a moment on, the guard against stale rejections never discards one |
| `Exactness.LeftoverHarms` | src/raft/engine.rs:536-543 | from a new leader with an append left over to a peer there is always a future in which it credits the peer with an entry the peer does not have |
| `Exactness.GuardIsExact` | src/raft/engine.rs:269-291 | when a node wins and a peer is in no later term, match indices for the peer are sound in every future of that leadership if and only if no append to it is pending |
| `Guarantees.SuccessSetsNext` | src/raft/engine.rs:536-543 | after every success the next index is the match index + 1, in every run |
| `Guarantees.LoneVoterNeverLeads` | src/raft/engine.rs:375-378 | a cluster of one never has a leader |
| `Progress.RunGoesOnward` | src/raft/engine.rs:163-212 | over any run terms never fall, a vote in a term is never taken back, a leadership only appends and only raises match indices, and between restarts commit and apply index never fall and the voters stay the same |
| `Progress.TickActsWhenDue` | src/raft/engine.rs:136-161 | a tick stands for election exactly when a node that does not lead has reached its deadline, and a leader's tick sends an append exactly to the idle voters, exactly when the heartbeat is due |
| `Progress.LeaderDeadlineAfterTick` | src/raft/engine.rs:129-161 | after a leader's tick its deadline lies ahead exactly when its election deadline does |
| `CommitRule.ScanFindsMajorityIndex` | src/raft/engine.rs:620-653 | the scan commits exactly the quorum-th largest match index when it is new and of the current term, and otherwise nothing |
| `CommitRule.SuccessCommitsMajorityIndex` | src/raft/engine.rs:536-544 | so does every success in a reached leader |
| `Committing.LeaderCommitsAllItCan` | src/raft/engine.rs:620-653 | in every run a leader has committed every index of its term that, by its match indices, a majority holds |
| `Committing.LeaderReportsItsLog` | src/raft/engine.rs:487-510 | in every run, what a leader commits in a leadership it reports as its log has it, if that was so for what it had applied when it won |
| `CatchUp.RejectionStepsBack` | src/raft/engine.rs:553-564 | every rejection narrows the gap between next and match index by exactly one and sends again |
| `CatchUp.PeerCatchesUp` | src/raft/engine.rs:536-564 | within that gap plus one exchanges the peer holds the leader's whole log and the leader knows it |
| `CatchUp.ReachedIsReady` | src/raft/engine.rs:590-618 | in a leadership that began clear of a peer, every append pending to the peer can be taken from there |
| `Convergence.PairConverges` | src/raft/engine.rs:536-564 | for a connected peer of such a leadership, idle or not, heartbeats and deliveries alone lead to a future in which the peer holds the leader's whole log and the leader's match index is its last index, and nobody else has moved |
| `Convergence.AllConverge` | src/raft/engine.rs:536-564 | any set of such peers can be brought up to date together |
| `Committing.QuorumCommits` | src/raft/engine.rs:620-653 | with a majority of such peers the leader's last index, if of its own term, gets committed |
| `Elections.CanWin` | src/raft/engine.rs:214-381 | a node that does not lead can win the next term, without any log or commit index changing, from a connected majority in no later term whose logs do not outrank its own |
| `Convergence.CommitReachesPeer` | src/raft/engine.rs:487-510 | one heartbeat to a connected peer that has caught up hands it the commit index, and it applies exactly the entries it had not |
| `Leftover.UnguardedSafetyFails` | src/raft/engine.rs:536-543 | in a run with an unacknowledged commit two nodes apply different entries at one index |
| `Leftover.UnguardedMatchFails` | src/raft/engine.rs:536-543 | in a run with an append left over a peer is credited with an entry it does not have |
| `Leftover.UnguardedTruncationHappens` | src/raft/engine.rs:451-457 | in a run with an unacknowledged commit a committed entry is truncated |

## Left out

- Poll: `fuel` bounds the passes of the loop, because the source's loop can go round for as long as a leader's election deadline lies in the past; wakers and wake-ups by other futures are not part of the model.
- Poll: the timer is taken to go off exactly at its deadline; the real timer has its own granularity, rounds up, and may go off later.
- ArmSleep: reads the clock once; the source reads it a second time inside the timer it creates, so its timer may be later by the time that passes in between.
- constructor: the behaviour's queue starts empty; the source queues one event per seed peer that says which node the peer is.
- SendRpc: every voter has a peer, so the branch for an unknown node is not modelled, nor is the dialling of a peer that is not connected.
- OnRequest: requests of peers that are no node of the cluster, which the source reports and drops, are not modelled.
- OnDialFailure: which errors are benign is a parameter, and the back-off before the next dial is left out.
- PeerCatchesUp: is about the two engines and the exchange between them; `Convergence.PairConverges` carries it over to clusters.
- Propose: the command is stored as opaque bytes; entry types other than commands are never created by the engine.
- Terms, indices and correlation ids are unbounded naturals; overflow of 64-bit integers and the wrap-around of correlation ids are not modelled.
- The order in which a hash set or hash map is iterated: other voters come in configuration order in the functions and the engine; pending requests are found in any order.
- Peers are identified with nodes; the peer map, unknown peers, dialling, its back-off and jitter are left out. In the cluster the connections to a peer are one fact, connected or not; the behaviour keeps the set of them.
- Every node is a voter, every node knows the same voters, and peers are honest: a message names its sender, and answers come from nodes that ran this code on the request.
- A reply reaches a node only in the life that sent the request; correlation ids start again after a restart.
- The handler, the codec and the protocol upgrade are message delivery and loss.
- In the cluster, failures that the handler reports without a correlation id do not occur: they change no node and only raise an event.
- Snapshots and their messages do nothing in the engine and are ignored here; membership change does not exist in the source.
- A restart that loses the storage breaks one vote per term by design and is not among the events.
- The debug assertion in the merge is a property rather than a step here: without unacknowledged commits it cannot fire.
- Eventual election of a leader depends on timing and randomness and is not claimed; `Elections.CanWin` says when a node can win.
