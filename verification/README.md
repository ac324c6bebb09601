# daccord: a verified model of its consensus core

daccord replicates a log of values over a cluster with Raft or Multi-Paxos, stores what it
decides, answers the callers that proposed, and streams decisions to watchers. This project
models the parts where that can go wrong and proves what they promise:

- the Raft protocol as a cluster of any size, over any run, with loss, delay, duplication,
  timeouts, client proposals, and crashes after any single write to storage: what no run can do,
  and what every run can still do as long as a majority is there;
- the write-back storage of a Raft node and its recovery;
- the life of a proposal: routing inside a node, and the answer its caller gets;
- the decision feed: the sorted decision log, its paging, the watch stream and the client that
  reconnects, over all interleavings;
- one Multi-Paxos node: what it proposes, what it decides, and its promise to leaders.

`dafny verify dfyconfig.toml` checks everything.

## How it fits together

The handlers of a Raft node are written twice. `RaftProtocol` is the object with its fields,
its loops and the storage it owns; each of its methods is proved to do to the object's value
what a function of `RaftNode` or `Persistence` says. `Cluster` runs those functions: a step is
one event at one node (handle, flush, send, store decisions, in that order), possibly cut short
by a crash after some number of writes, or a restart. `RaftProtocol.Turn` is that step without
a crash, so what is proved of runs is about the methods.

The safety argument has two layers. `RaftCore` has only what is durable, plus a history that no
node can see: who won which term with which log, who voted for whom, who confirmed how much.
Its invariant `Inv` is kept by a handful of small moves (`RaftMoves`), and Leader Completeness
is proved on it by induction on terms. `Replica`, `Handlers`, `Replication` and `Events` show
that every handler is a sequence of such moves, and `Recovery` and `Safety` that a crash
between any two writes is too. `RunTheorems` and `LeaderTheorems` state the results on runs,
with the history gone from view, and `Reordering` is the run that shows what the network has to
provide.

Safety says little of a node that does nothing, so the other direction is proved as well.
`RaftRules` says exactly what each event does, in terms of messages, logs and majorities alone.
`RepairRuns`, `Elections` and `Availability` continue runs: from any reached state a leader can
bring a follower in line, a majority can elect the best of its nodes, and a proposal made at any
node of a majority can be decided and stored by all of it.

The Multi-Paxos node is written twice as well: `PaxosProtocol` is the object, `PaxosNode` the
functions it refines, `PaxosRules` says what each event does, and `PaxosTheorems` and
`PaxosProposals` (on `PaxosRecords`) what holds over runs of those functions. The order in
which the source goes through a hash map is an argument of the functions and a ghost result of the
methods, so the theorems hold for every order. `Answers` follows the callers of one node along a
run of the cluster.

### The network

Messages may be lost, delayed, duplicated and reordered, with one exception: a node does not
handle an AppendEntries after one that the same leader sent it later in the same term. The
exception is needed. A successful AppendEntries here cuts everything past its own entries
(raft.rs:680-690), where Figure 2 of "In Search of an Understandable Consensus Algorithm
(Extended Version)" deletes only what conflicts. `Repair.KeepsConfirmed` says exactly which
messages leave a follower what it has confirmed, and `Reordering.SafetyNeedsOrder` gives a run of
three nodes in which one overtaken heartbeat leads to two different values stored for one slot.

Storage drops the nonce of a proposal (proposal.rs:102-123), so agreement is on the user's
value. Node identities are fixed across restarts.

### Where the code and its comments differ

The model follows the code.

- raft.rs:388-393 says entries whose append mark is cleared are marked again later. Entries that
  match are not; nothing is lost only because every event is flushed before the next, which is
  what `Persistence.EventSyncs` rests on.
- watch.rs:26-28 names two transient errors; the code (watch.rs:106-111) has three.
- paxos.rs:73-78 says the leader promise holds back every lower Accept. It does for Accept
  messages; a node's own votes are not compared with it. `PaxosTheorems.PromiseCastsBelow` says
  exactly when one goes below, and `PaxosTheorems.VotesBelowGrant` reaches one.
- paxos.rs:510 takes the node's own vote for what it proposed. The vote may be for another value,
  cast since at a higher number (`PaxosRules.DecidesAnother`); `PaxosRules.AcceptedExactly` says
  what is decided.
- paxos.rs:724 calls the choice of value in phase 2 the core safety rule. `PaxosProposals.PhaseTwoProposes`
  shows that each choice follows it; but a promise that comes after the quorum makes the node choose
  again, at the same number (`PaxosRules.ProposesTwice`; exactly when, `PaxosRules.SecondThoughts`).
- Slots count up with saturation (service.rs:116, 164; watch.rs:39). At the last 64-bit slot the
  cursor stops, and paging and watching repeat that decision. The theorems on the feed hold with
  and without that slot and say exactly when a run of slots has no repeat.

## Model

| member | source | states |
|---|---|---|
| RunTheorems.StateMachineSafety | daccord/src/protocol/raft.rs:836-886 | no two nodes, at any two moments of any run, have stored different values for one slot |
| RunTheorems.LeadersAreComplete | daccord/src/protocol/raft.rs:488-532 | whatever a node of an earlier term knows to be committed is on the log of every leader of every later term, at any moment |
| RunTheorems.ElectionSafety | daccord/src/protocol/raft.rs:397-532 | a term has at most one leader in a whole run, crashes and restarts included |
| RunTheorems.VotesOnce | daccord/src/protocol/raft.rs:488-514 | no node ever sends granted votes to two candidates in one term, even if it crashed between saving the term and the vote |
| RunTheorems.LogsMatch | daccord/src/protocol/raft.rs:589-659 | two logs with the same term at an index are equal up to it, whenever and wherever they were held |
| RunTheorems.EntriesAreLeaders | daccord/src/protocol/raft.rs:726-751 | every entry of a term lies, with all before it, on the log of that term's leader: at any moment the two agree as far as the leader's log goes, and from that moment on it goes that far |
| RunTheorems.CommittedStaysForever | daccord/src/protocol/raft.rs:668-690 | no later cut, overwrite or crash removes from a node what it knew to be committed |
| RunTheorems.ConfirmedStays | daccord/src/protocol/raft.rs:668-713 | while a node stays in a term it keeps every entry it ever confirmed in it, whatever becomes of the leader, and agrees with the leader while that is in office |
| RunTheorems.DecisionsPersist | daccord/src/protocol/raft.rs:298-304 | a stored decision stays stored with its value through every later step and crash |
| RunTheorems.WriteBack | daccord/src/protocol/raft.rs:275-344 | in every reachable state storage equals memory, nonces aside, and the stored decisions are those of a prefix of the committed stored log |
| LeaderTheorems.CommitsExactly | daccord/src/protocol/raft.rs:836-864 | at every event of every run that consults the rule, the commit index moves if and only if some index of the leader's term above it is on a majority of what the leader has just learnt, and then to the highest; other events leave a leader's commit index |
| LeaderTheorems.NothingLeftToCommit | daccord/src/protocol/raft.rs:765-785 | between events no reachable leader of a cluster has an index left that the rule could commit |
| LeaderTheorems.RepairsExactly | daccord/src/protocol/raft.rs:788-832 | from every reachable state the exchange a leader's heartbeat sets off ends within as many rejections as the leader has entries, and within one more than the follower's log has terms; the logs are then equal exactly if the leader's has an entry or the follower's has none |
| RepairRuns.RepairsInARun | daccord/src/protocol/raft.rs:590-724 | every run that has reached a leader and another node of its term goes on, by one tick and a bounded number of deliveries, to where the two logs are equal, under the same exact condition, and the other node has stored every slot the leader has committed |
| RepairRuns.FollowersCommit | daccord/src/protocol/raft.rs:692-701 | at every step of every run that handles an AppendEntries, the node's commit index becomes the larger of its own and the leader's as far as the message reaches, if the message is current and follows on, and stays if not; all that is committed is then stored |
| Availability.MajorityDecides | daccord/src/protocol/raft.rs:900-1046 | from every reached state, whatever has become of the other nodes, a proposal given to any node of a majority can be decided: the run goes on, by steps of that majority alone, to where each of its nodes has stored the value in the same slot |
| Elections.MajorityElects | daccord/src/protocol/raft.rs:397-532 | any node of a majority whose log is no worse than theirs can be elected by them: the run goes on, by their steps alone, to where it leads, all of them are in its term, and its log is still there |
| Elections.MajorityHasBest | daccord/src/protocol/raft.rs:358-375 | every majority has such a node |
| RaftCore.LeaderCompleteness | daccord/src/protocol/raft.rs:360-375 | entries of a term's leader confirmed by a majority, the last of that term, are on the log every later leader stood for election with |
| RaftCore.UpToDateHolds | daccord/src/protocol/raft.rs:360-375 | a candidate's log that is at least as up to date as a voter's holds the prefix of a term's leader that the voter holds, if all leaders in between do |
| RaftCore.KnownAgree | daccord/src/protocol/raft.rs:836-864 | of two prefixes known to be committed one is a prefix of the other |
| RaftCore.LogMatching | daccord/src/protocol/raft.rs:589-596 | logs that lie on elected leaders' logs and share a term at an index are equal up to it |
| RaftMoves.CommittedStays | daccord/src/protocol/raft.rs:680-690 | replacing a log by a stretch of the current leader's log that covers what the leader had on election keeps all that is committed |
| RaftMoves.AcceptFits | daccord/src/protocol/raft.rs:633-690 | taking over the leader's log up to where a message reaches keeps the invariant, provided it reaches what was confirmed to that leader |
| RaftMoves.CutFits | daccord/src/protocol/raft.rs:283-289 | a crash after the cut and before the append keeps the invariant |
| RaftMoves.WinInv | daccord/src/protocol/raft.rs:516-532 | a candidate with votes of a majority takes office without breaking the invariant |
| RaftMoves.CastInv | daccord/src/protocol/raft.rs:488-514 | a vote granted to an up-to-date candidate keeps the invariant |
| RaftMoves.GrowInv | daccord/src/protocol/raft.rs:906-920 | a leader's append of entries of its term keeps the invariant |
| RaftMoves.CertifyInv | daccord/src/protocol/raft.rs:836-864 | committing an entry of the leader's term that a majority confirmed keeps the invariant |
| Replication.MergedIsLeaders | daccord/src/protocol/raft.rs:633-690 | an accepted AppendEntries leaves the follower's log equal to the leader's log as far as the message reaches |
| Replication.AppendMoves | daccord/src/protocol/raft.rs:535-724 | handling an AppendEntries, accepted or rejected, is a lawful move, and the answer sent is true |
| Replication.CutMoves | daccord/src/protocol/raft.rs:680-690 | storage cut and not yet appended to is still a lawful state of the core |
| Events.EventMoves | daccord/src/protocol/raft.rs:931-1046 | every event of every kind is a lawful move of the core, and every message it sends is true of it |
| Recovery.StageCore | daccord/src/protocol/raft.rs:275-294 | storage after any initial part of a flush is a state some lawful moves reach |
| Safety.StepLinked | daccord/src/node.rs:544-617 | every step of the cluster, cut short or not, keeps nodes, storage and network in line with a core that satisfies the invariant |
| Safety.RunLinked | daccord/src/protocol/raft_proptest.rs:138-199 | every run has such a history of cores |
| Safety.RestartOk | daccord/src/protocol/raft.rs:187-254 | a restarted node is in line with the core; a lone node resumes as leader only of a term it won |
| Persistence.EventSyncs | daccord/src/protocol/raft.rs:275-344 | after the flush that follows any event, stored term, vote, log and commit index equal memory |
| Persistence.HandleTracks | daccord/src/protocol/raft.rs:377-395 | between flushes the marks account exactly for how memory ran ahead of storage, and clearing the append mark loses nothing |
| Persistence.FlushPrefixIsStage | daccord/src/protocol/raft.rs:275-294 | a flush cut short after any write leaves storage at one of six stages |
| Persistence.FlushSyncs | daccord/src/storage.rs:203-214 | cut then append lands at the right offset: the flush of a tracked node makes storage equal to it |
| Persistence.LastSlot | daccord/src/protocol/raft.rs:198 | the highest stored slot, if any |
| Delivery.RestoreExact | daccord/src/protocol/raft.rs:187-254 | a restart is level with storage and emits exactly the committed slots not yet stored, in order |
| Delivery.HandleGrown | daccord/src/protocol/raft.rs:866-886 | an event queues for delivery exactly the slots it commits, in order, with the log's values |
| Delivery.DrainStores | daccord/src/protocol/raft.rs:298-304 | storing any initial part of the queued decisions leaves the decisions of a prefix of the log |
| Progress.RunsGoOn | daccord/src/protocol/raft_proptest.rs:138-199 | from any reached state any node can take a tick, a proposal or a restart, and the run goes on |
| Progress.LoneNodeLeads | daccord/src/protocol/raft.rs:397-433 | a lone node is in office after its first tick |
| Progress.LoneLeaderDecides | daccord/src/protocol/raft.rs:906-920 | a lone leader decides each proposal at once, in the next slot |
| CommitRule.CommitRuleExact | daccord/src/protocol/raft.rs:836-864 | the commit index moves if and only if some index of the term above it is on more than half of the nodes, and then to the highest; never back |
| CommitRule.QuorumthIsHeld | daccord/src/protocol/raft.rs:837-843 | in descending order the quorum-th match index is what a quorum holds, and one more is not |
| CommitRule.SortedMatches | daccord/src/protocol/raft.rs:837-838 | the match indexes of all replicas, each once, in descending order |
| Types.QuorumsAreMajorities | daccord/src/protocol/raft.rs:146-148 | the quorums of n nodes are exactly the sets of more than half of them |
| RaftRules.VotesExactly | daccord/src/protocol/raft.rs:488-514 | a vote is granted if and only if the term is not an earlier one, no other candidate has the node's vote in it, and the candidate's log is no worse: the last term decides, then the length; the term, vote and role that result |
| RaftRules.WinsExactly | daccord/src/protocol/raft.rs:516-532 | a node takes office on a vote if and only if it stands in that term and the vote makes more than half; it takes its buffer into its log and counts only itself as holding it |
| RaftRules.StandsExactly | daccord/src/protocol/raft.rs:397-433 | a node whose time is up stands in the next term, votes for itself and tells all how its log ends; a second try gives up its buffer |
| RaftRules.StepsDown | daccord/src/protocol/raft.rs:377-395 | an answer of a later term makes a follower of that term, with no leader and no vote |
| RaftRules.SpeaksExactly | daccord/src/protocol/raft.rs:473-486 | a leader's tick sends an empty AppendEntries at the end of its log to all and changes nothing |
| RaftRules.AcknowledgesExactly | daccord/src/protocol/raft.rs:753-785 | a leader takes a confirmation of its term, within its log, as what that follower holds, and nothing else |
| RaftRules.AppendsExactly | daccord/src/protocol/raft.rs:535-724 | an AppendEntries is confirmed if and only if it is current and follows on; how far, what is committed, and that nothing else moves the commit index |
| RaftRules.RejectsExactly | daccord/src/protocol/raft.rs:597-620 | a rejection names the length of a short log, or the term in the way and the index where it begins |
| RaftRules.ResendsExactly | daccord/src/protocol/raft.rs:788-832 | the leader resumes just past its own last entry of the term named, else at the index named, else one earlier than before |
| RaftRules.SendsCarry | daccord/src/protocol/raft.rs:726-751 | every AppendEntries any event sends carries the sender's whole log from some point on, the term before it, and its commit index, as they are when the event ends |
| RaftRules.ProposesExactly | daccord/src/protocol/raft.rs:906-929 | a proposal goes into a leader's log, to the leader a node knows, or into its buffer |
| RaftRules.ForwardsExactly | daccord/src/protocol/raft.rs:985-1021 | a forwarded one likewise, one hop further, not back and not past the limit |
| RaftRules.BufferGoesToLeader | daccord/src/protocol/raft.rs:714-723 | a node that finds its leader sends it all it had buffered, in order |
| RaftRules.RestartsExactly | daccord/src/protocol/raft.rs:187-257 | a restart from any storage: term, vote and log as stored, the commit index covering what is stored as committed or decided within the log and no more, and in office exactly if alone and voted for by itself |
| Repair.OneRejectionATerm | daccord/src/protocol/raft.rs:597-620 | what the hints are for: a follower rejects at most once for each term of its log, and once for being short |
| Repair.RetryLowers | daccord/src/protocol/raft.rs:788-832 | each rejection makes the leader send from a strictly earlier point, and all of its log from there |
| Repair.RepairExact | daccord/src/protocol/raft.rs:590-631 | the exchange ends after no more rejections than the first message reaches back, with equal logs exactly if the leader's has an entry or the follower's has none |
| Repair.RejectionIsRetried | daccord/src/protocol/raft.rs:753-834 | the follower's rejection handed to the leader's message handler is the retry the exchange is made of |
| Repair.SameTermEarlier | daccord/src/protocol/raft.rs:789-803 | a log that has a term at or after an index agrees there with any log that has that term at the index |
| Repair.KeepsConfirmed | daccord/src/protocol/raft.rs:674-690 | an accepted message leaves a follower a prefix of its leader's log if and only if it reaches that far or verifies nothing |
| Reordering.SafetyNeedsOrder | daccord/src/protocol/raft.rs:680-690 | without the order of AppendEntries a run of three nodes, with no crash and no packet delivered twice, ends with two different values stored for one slot |
| Reordering.Cuts | daccord/src/protocol/raft.rs:680-690 | a heartbeat from when the leader's log was shorter cuts the follower's log back to that length |
| Proposals.EventBalanced | daccord/src/protocol/raft.rs:397-471 | in every event the proposals waiting or coming in are, as multisets, those waiting, logged by a leader, sent on or dropped at the hop limit |
| Proposals.RelaysAreShort | daccord/src/protocol/raft.rs:985-1021 | a chain of relays has at most three messages, whatever the nodes believe about the leader |
| Proposals.ForwardingEnds | daccord/src/message/raft.rs:48-59 | in any run every forwarded proposal has made fewer hops than the limit |
| Integrity.DecidedWasProposed | daccord/src/node.rs:544-564 | whatever a node stores as decided, a client proposed earlier in the run |
| Answers.CallersAnswered | daccord/src/node.rs:544-688 | in every run with distinct nonces each caller of a node waits or has one unchanging answer: the value it proposed, at a slot where the node has that value stored, or a cancellation, which needs the node to have gone down after the caller came |
| Answers.CallersExist | daccord/src/node.rs:544-688 | every run, with any choice of callers, has its history of answers |
| Answers.DeliveredAt | daccord/src/node.rs:651-688 | every decision an event without a crash hands over is stored at the node when the event ends |
| Answers.RecoveredAnswers | daccord/src/node.rs:187-199 | in every run each recovered decision of a value that an event hands over leaves one caller fewer waiting for that value, until none is left; and no more of them stop waiting than the value is decided |
| Integrity.HandleFrom | daccord/src/protocol/raft.rs:931-1023 | no handler logs, sends or delivers a value it was not given |
| Completion.AnsweredOnce | daccord/src/node.rs:150-212 | over any life of a node a caller waits until it has one answer, which never changes, and all have one once the node stops |
| Completion.AnswersRight | daccord/src/node.rs:175-200 | an answer carries the caller's value if and only if the decision under its nonce does; without a nonce it always does |
| Completion.SettlesSomeone | daccord/src/node.rs:175-200 | a decision answers exactly one waiting caller if there is a candidate, and leaves nobody under its nonce |
| Completion.SettlesExactly | daccord/src/node.rs:175-200 | a decision with a nonce answers exactly the caller under it; one whose nonce is gone answers exactly one of the callers waiting for its value, if there is any |
| Completion.FewerWait | daccord/src/node.rs:651-688 | over any list of decisions, each recovered one of a value leaves one caller fewer waiting for it, until none does |
| Completion.ComesIn | daccord/src/node.rs:161-173 | a new caller waits, and all others wait on but one under the same nonce, who is cancelled |
| Completion.PendingMap.Insert | daccord/src/node.rs:161-173 | a new caller waits under its nonce; one displaced by the same nonce is cancelled |
| Completion.PendingMap.RemoveForDecision | daccord/src/node.rs:175-200 | takes out exactly the caller under the nonce; with nonce 0 exactly one that waits for the value, if any does |
| Completion.PendingMap.ProcessDecisions | daccord/src/node.rs:651-688 | answers the callers of a list of decisions one by one, changing no earlier answer |
| Completion.PendingMap.Drop | daccord/src/node.rs:206-212 | everyone still waiting is cancelled, nobody else is touched |
| RaftProtocol.RaftProtocol.Turn | daccord/src/node.rs:544-617 | one turn of the event loop is the cluster's step without a crash, and leaves storage level with memory |
| RaftProtocol.RaftProtocol.constructor | daccord/src/protocol/raft.rs:108-144 | a new node as a run starts it |
| RaftProtocol.RaftProtocol.ApplyCommittedEntries | daccord/src/protocol/raft.rs:866-886 | queues the committed slots after the last applied one |
| RaftProtocol.RaftProtocol.TryAdvanceCommit | daccord/src/protocol/raft.rs:836-864 | sorts the match indexes and does what the commit rule proved exact says |
| RaftProtocol.RaftProtocol.BecomeFollower | daccord/src/protocol/raft.rs:377-395 | steps down, into the new term if it is later |
| RaftProtocol.RaftProtocol.StartElection | daccord/src/protocol/raft.rs:397-433 | stands in the next term; wins at once where one vote is a quorum; gives up buffered proposals on a second try |
| RaftProtocol.RaftProtocol.BecomeLeader | daccord/src/protocol/raft.rs:435-471 | takes office and publishes what was buffered, or a heartbeat |
| RaftProtocol.RaftProtocol.BroadcastHeartbeat | daccord/src/protocol/raft.rs:473-486 | an empty AppendEntries at the end of the log |
| RaftProtocol.RaftProtocol.HandleRequestVote | daccord/src/protocol/raft.rs:488-514 | grants one vote a term, to a candidate whose log is up to date |
| RaftProtocol.RaftProtocol.HandleRequestVoteResponse | daccord/src/protocol/raft.rs:516-532 | counts a granted vote and takes office with a quorum |
| RaftProtocol.RaftProtocol.PlaceEntries | daccord/src/protocol/raft.rs:633-690 | the loop over the entries and the cut after it leave the merged log and its marks |
| RaftProtocol.RaftProtocol.ConflictHint | daccord/src/protocol/raft.rs:597-620 | the length of a short log, or the term that does not fit and its first index |
| RaftProtocol.RaftProtocol.HandleAppendEntries | daccord/src/protocol/raft.rs:535-724 | the whole handler: rejections, placing, cutting, committing, answering, forwarding |
| RaftProtocol.RaftProtocol.BroadcastWithEntries | daccord/src/protocol/raft.rs:726-751 | an AppendEntries that carries the last entries of the log |
| RaftProtocol.RaftProtocol.HandleAppendEntriesResponse | daccord/src/protocol/raft.rs:753-834 | records a success within the log and tries to commit; resends after a rejection |
| RaftProtocol.RaftProtocol.ResumeAt | daccord/src/protocol/raft.rs:788-810 | where the leader resumes after a rejection |
| RaftProtocol.RaftProtocol.Propose | daccord/src/protocol/raft.rs:906-929 | a leader logs and broadcasts, others forward or buffer |
| RaftProtocol.RaftProtocol.HandleForward | daccord/src/protocol/raft.rs:985-1021 | a leader takes the value, others pass it on within the hop limit or buffer it |
| RaftProtocol.RaftProtocol.HandleMessage | daccord/src/protocol/raft.rs:931-1023 | steps down to a later term first, then the handler of the message |
| RaftProtocol.RaftProtocol.OnTick | daccord/src/protocol/raft.rs:1025-1046 | a heartbeat or an election when due |
| RaftProtocol.RaftProtocol.FlushPersist | daccord/src/protocol/raft.rs:275-344 | writes term, vote, cut, append and commit index in that order, as marked, and clears the marks |
| RaftProtocol.RaftProtocol.DrainDecisions | daccord/src/protocol/raft.rs:298-304 | stores the queued decisions in order and hands them over |
| RaftProtocol.RaftProtocol.Recover | daccord/src/protocol/raft.rs:187-267 | the state a restart computes from storage |
| RaftProtocol.MaxSlot | daccord/src/protocol/raft.rs:198 | the highest stored slot |
| RaftProtocol.RaftMemoryStorage.AppendLog | daccord/src/storage.rs:203-206 | adds entries at the end |
| RaftProtocol.RaftMemoryStorage.TruncateLogFrom | daccord/src/storage.rs:208-214 | cuts the log; past its end it does nothing |
| RaftProtocol.RaftMemoryStorage.SaveDecision | daccord/src/storage.rs:172-175 | stores the value of a slot |
| RaftProtocol.RaftMemoryStorage.SaveTerm | daccord/src/storage.rs:185-188 | overwrites the term only |
| RaftProtocol.RaftMemoryStorage.SaveVotedFor | daccord/src/storage.rs:194-197 | overwrites the vote only |
| RaftProtocol.RaftMemoryStorage.SaveCommitIndex | daccord/src/storage.rs:220-223 | overwrites the commit index only |
| DecisionFeed.DecisionLog.Search | daccord-demo/src/service.rs:81 | binary search: the position of a slot, or the place it belongs |
| DecisionFeed.DecisionLog.Append | daccord-demo/src/service.rs:73-96 | a new slot is placed in order and broadcast, a known one is ignored and not broadcast |
| DecisionFeed.DecisionLog.Range | daccord-demo/src/service.rs:102-119 | the longest gap-free run from a slot that the limit admits, and the next slot |
| DecisionFeed.FirstArrivalsStay | daccord-demo/src/service.rs:73-96 | after any sequence of arrivals, out of order or repeated, the log is rising and holds for each slot the first value that came |
| DecisionFeed.AppendKeepsFirst | daccord-demo/src/service.rs:73-96 | one more arrival keeps that |
| DecisionFeed.PagingIsRange | daccord-demo/src/service.rs:245-262 | pages followed by their cursor, with any limits, are one page with the sum of the limits, exactly if they have not passed the last slot |
| DecisionFeed.PagesCount | daccord-demo/src/service.rs:102-119 | any pages followed by their cursor count up from the start with the log's values, the last slot repeating |
| DecisionFeed.PagingIsComplete | daccord-demo/src/service.rs:245-262 | pages that fall short of their limits are all that one unlimited range returns, exactly if they have not passed the last slot |
| DecisionFeed.PageThenPage | daccord-demo/src/service.rs:102-119 | two pages join to one if and only if the first does not end at the last slot or the second asks for nothing |
| DecisionFeed.PagingRepeatsLast | daccord-demo/src/service.rs:116 | at the last slot paging returns the same decision again |
| Watch.Watcher.Offer | daccord-demo/src/service.rs:163-186 | yields a decision that is due and all early ones it releases, holds back one that is early, skips one that is past |
| Watch.Watcher.Replay | daccord-demo/src/service.rs:159-174 | goes through a snapshot in order |
| Watch.OfferedFaithful | daccord-demo/src/service.rs:163-186 | an offered decision of the log keeps the stream counting up from its start with the log's values, and nothing seen is forgotten |
| Watch.OfferExactly | daccord-demo/src/service.rs:163-186 | an offer keeps the stream free of gaps and repeats if and only if it is not the last slot again after it was yielded |
| WatchTheorems.EndToEnd | daccord-client/src/watch.rs:33-103 | over any interleaving and any disconnections, lags and reconnections what the client yields counts up from its start with the log's values, and has neither gap nor repeat exactly as long as it has not passed the last slot |
| WatchTheorems.StreamsExactly | daccord-demo/src/service.rs:150-205 | a live stream has yielded exactly the log's decisions from its start up to its count, in order, each once exactly as long as it has not passed the last slot |
| WatchTheorems.MissesNothing | daccord-demo/src/service.rs:150-205 | a stream that has consumed every broadcast stands at the first slot the log lacks, and so does a client that has taken all of it |
| WatchTheorems.LastSlotTwice | daccord-demo/src/service.rs:150-186 | a decision at the last slot inserted between subscribing and the snapshot is yielded twice |
| WatchTheorems.Client.NextIndex | daccord-client/src/watch.rs:37-41 | the slot after the last one yielded, or the start |
| WatchTheorems.Client.Consume | daccord-client/src/watch.rs:63-76 | yields a stream's decisions and remembers the last slot |
| WatchTheorems.Client.Follow | daccord-client/src/watch.rs:33-111 | yields session after session, going on after a close and after exactly three status codes, and stops at the first other error, which it passes on |
| PaxosTheorems.DecidedOnce | daccord/src/protocol/paxos.rs:489-606 | over any run of messages, proposals and ticks a decided slot keeps its value, has no instance, stays below the next slot, and is emitted exactly once unless it was loaded |
| PaxosTheorems.EventKept | daccord/src/protocol/paxos.rs:250-318 | every event keeps the node's invariant, all its decisions and its promise, and announces only decisions it has; only a Promise or an Accepted can stop the node |
| PaxosTheorems.AcceptsReachGrant | daccord/src/protocol/paxos.rs:379-444 | after a number has been granted to a leader, every vote an Accept makes the node cast is the Accept's own and has at least that number |
| PaxosTheorems.AcceptsExactly | daccord/src/protocol/paxos.rs:379-444 | an Accept is taken if and only if the slot is open and its number reaches the slot's and the leader promise; a refusal names a higher number |
| PaxosTheorems.LeadsByPromise | daccord/src/protocol/paxos.rs:1191-1248 | at every moment of a run a node that leads or runs for leader has its own number as its promise, at least as high as every promise before |
| PaxosTheorems.GrantEndsOffice | daccord/src/protocol/paxos.rs:1097-1138 | a grant to a leader ends any leadership and any election of this node |
| PaxosTheorems.PromiseCastsBelow | daccord/src/protocol/paxos.rs:447-486 | a Promise makes the node vote below its leader promise if and only if it is for the number of an open slot, completes the quorum, the slot's promise admits the number, the leader promise does not, and the vote is not one it holds |
| PaxosTheorems.ProposalCastsBelow | daccord/src/protocol/paxos.rs:626-664 | a proposal does so under the same condition, with the node's own promise completing the quorum |
| PaxosTheorems.RetryCastsBelow | daccord/src/protocol/paxos.rs:827-876 | a retry does so under the same condition, with one promise as a quorum |
| PaxosTheorems.OthersBound | daccord/src/protocol/paxos.rs:250-318 | no other message makes the node vote below its leader promise |
| PaxosTheorems.OnlyOwnVotesBelow | daccord/src/protocol/paxos.rs:1400-1420 | in any run only a Promise, a proposal of a node that does not lead, or a tick makes the node vote below its leader promise |
| PaxosTheorems.VotesBelowGrant | daccord/src/protocol/paxos.rs:720-767 | such a vote is reached by three events: a proposal, a grant to a leader, and the promise that completes the quorum |
| PaxosTheorems.ElectionRecovers | daccord/src/protocol/paxos.rs:1191-1248 | a new leader has voted again at its number for a highest vote of every open slot its electors reported, has asked for votes, and is past every slot in play |
| PaxosTheorems.HighestIsHighest | daccord/src/protocol/paxos.rs:1200-1216 | exactly the open slots reported, each with a reported vote no other outnumbers |
| PaxosTheorems.VotesReport | daccord/src/protocol/paxos.rs:1077-1091 | whatever the order of the hash map, a grant reports exactly the node's votes for open slots |
| PaxosTheorems.CandidateGood | daccord/src/protocol/paxos.rs:1001-1051 | standing for leader keeps the invariant, and makes the new number, not below any promise before, the node's promise |
| PaxosTheorems.RetryIsHigher | daccord/src/protocol/paxos.rs:827-876 | a retry's number is above the slot's promise and its last number, and what was accepted stays |
| PaxosTheorems.WithoutOne | daccord/src/protocol/paxos.rs:1367-1375 | one forwarded value equal to the decided one is removed, if there is one, and nothing else |
| PaxosProposals.PhaseTwoProposes | daccord/src/protocol/paxos.rs:720-767 | over any run, what a Promise makes the node propose or announce has the value of a highest vote reported to it since it last asked for promises for the slot; if none was, its own value |
| PaxosProposals.OwnValue | daccord/src/protocol/paxos.rs:626-664 | as long as the node wins no election, its own value for a slot is the one submitted when it opened the slot |
| PaxosProposals.DecisionHasQuorum | daccord/src/protocol/paxos.rs:489-522 | over any run a slot is decided by a Decide, or by a quorum that has voted for it at one number, this node counted once |
| PaxosProposals.ReproposesExactly | daccord/src/protocol/paxos.rs:1343-1361 | values forwarded too long ago are proposed here, oldest first, each in a slot of its own |
| PaxosRecords.EventSteady | daccord/src/protocol/paxos.rs:250-318 | an event that does not concern a slot keeps the best vote and the votes on record for it, or asks for promises anew; nothing is decided without a quorum |
| PaxosRules.PreparesExactly | daccord/src/protocol/paxos.rs:329-369 | a promise, with exactly the vote the node holds, if and only if the slot is open and the number is above its promise; no vote changes |
| PaxosRules.PromisesExactly | daccord/src/protocol/paxos.rs:447-486 | phase 2 starts if and only if the promise is for the number of an open slot and there is a quorum of promisers |
| PaxosRules.VotesInPhase2 | daccord/src/protocol/paxos.rs:720-767 | the node votes for what it proposes if and only if the slot's promise allows; a decision exactly with a quorum of voters |
| PaxosRules.AcceptedExactly | daccord/src/protocol/paxos.rs:489-522 | decides if and only if the vote is for the slot's number and completes a quorum, and then the value of the vote the node holds |
| PaxosRules.DecidesExactly | daccord/src/protocol/paxos.rs:525-567 | a Decide is learnt once; a value of its own that is beaten is reported lost, and one equal forwarded value is forgotten |
| PaxosRules.SubmitsExactly | daccord/src/protocol/paxos.rs:1322-1338 | sent to another leader and remembered, or proposed in the next slot, by a leader with its vote and number |
| PaxosRules.ForwardedExactly | daccord/src/protocol/paxos.rs:1307-1316 | proposed by a leader, ignored by others |
| PaxosRules.WantsRetryExactly | daccord/src/protocol/paxos.rs:771-803 | in a reachable state a slot of its own is tried again exactly if it was refused, waits for votes, or lacks promises |
| PaxosRules.RetriesExactly | daccord/src/protocol/paxos.rs:827-876 | a retry asks at a number above all that stand against it, with nothing counted but its own promise |
| PaxosRules.NacksExactly | daccord/src/protocol/paxos.rs:570-593 | the highest round named is noted, and a leader steps down |
| PaxosRules.BeatsExactly | daccord/src/protocol/paxos.rs:902-924 | a heartbeat of a term no earlier than any seen makes its sender the leader, unless this node leads in it |
| PaxosRules.GrantsExactly | daccord/src/protocol/paxos.rs:1097-1138 | leadership is granted if and only if the number is above every grant, with exactly the votes for open slots |
| PaxosRules.OfficeExactly | daccord/src/protocol/paxos.rs:1143-1163 | office if and only if the promise is for the running election and completes a quorum |
| PaxosRules.OfficeRecovers | daccord/src/protocol/paxos.rs:1191-1248 | promises and votes are gathered until then, and a highest vote of each open slot gathered is replayed |
| PaxosRules.LosesExactly | daccord/src/protocol/paxos.rs:1169-1183 | a refusal ends the election and raises the round seen |
| PaxosRules.CandidatesExactly | daccord/src/protocol/paxos.rs:1001-1051 | a candidate's round is one above all seen, from the lowest slot in play, with its own votes |
| PaxosRules.TimersExactly | daccord/src/protocol/paxos.rs:941-998 | who announces itself, whose election ends, and who stands |
| PaxosRules.AnnouncesExactly | daccord/src/protocol/paxos.rs:807-825 | recent decisions are announced again in order, expired ones forgotten |
| PaxosRules.DecidesAnother | daccord/src/protocol/paxos.rs:508-514 | a run in which a quorum votes for the value the node proposed and the node decides another |
| PaxosRules.ProposesTwice | daccord/src/protocol/paxos.rs:447-486 | a run in which the node proposes two values at one number |
| PaxosRules.SecondThoughts | daccord/src/protocol/paxos.rs:447-486 | exactly when a further promise leaves the value proposed as it was |
| PaxosProtocol.PaxosProtocol.constructor | daccord/src/protocol/paxos.rs:153-188 | a node as a run without stored decisions starts it |
| PaxosProtocol.PaxosProtocol.InitializeFromDecisions | daccord/src/protocol/paxos.rs:216-223 | a node as a run with stored decisions starts it |
| PaxosProtocol.PaxosProtocol.AckDecidedValue | daccord/src/protocol/paxos.rs:1367-1375 | removes the first forwarded value equal to the decided one |
| PaxosProtocol.PaxosProtocol.Conclude | daccord/src/protocol/paxos.rs:596-606 | records and emits a decision and ends the slot's instance |
| PaxosProtocol.PaxosProtocol.HandleDecide | daccord/src/protocol/paxos.rs:525-567 | learns a decision once, and reports its own value as lost only if it differs |
| PaxosProtocol.PaxosProtocol.HandlePrepare | daccord/src/protocol/paxos.rs:329-369 | promises a number above the slot's promise, reporting what was accepted; tells of a decision |
| PaxosProtocol.PaxosProtocol.HandleAccept | daccord/src/protocol/paxos.rs:379-444 | takes or refuses by the higher of the two promises; tells of a decision |
| PaxosProtocol.PaxosProtocol.StartPhase2 | daccord/src/protocol/paxos.rs:720-767 | proposes the best value promised or the node's own, with its own vote if its promise allows; decides with a quorum; stops without a value |
| PaxosProtocol.PaxosProtocol.HandlePromise | daccord/src/protocol/paxos.rs:447-486 | keeps the best vote reported and enters phase 2 with a quorum |
| PaxosProtocol.PaxosProtocol.HandleAccepted | daccord/src/protocol/paxos.rs:489-522 | decides the node's own accepted value with a quorum; stops if it has accepted none |
| PaxosProtocol.PaxosProtocol.ProposeFullPaxos | daccord/src/protocol/paxos.rs:626-664 | opens the next slot with a prepare, or with phase 2 if its own promise is a quorum |
| PaxosProtocol.PaxosProtocol.ProposeFastPath | daccord/src/protocol/paxos.rs:667-718 | opens the next slot with an accept at the leader's number, or decides if alone |
| PaxosProtocol.PaxosProtocol.RetryProposal | daccord/src/protocol/paxos.rs:827-876 | starts an open slot of its own over at a higher round |
| PaxosProtocol.PaxosProtocol.RetryAll | daccord/src/protocol/paxos.rs:1400-1405 | retries, in some order, exactly the slots that are due and want it |
| PaxosProtocol.PaxosProtocol.HandleNack | daccord/src/protocol/paxos.rs:570-593 | notes the round that beat it and gives up leadership |
| PaxosProtocol.PaxosProtocol.HandleHeartbeat | daccord/src/protocol/paxos.rs:902-924 | follows the sender of a recent enough heartbeat; a leader stays one unless the term is later than its own |
| PaxosProtocol.PaxosProtocol.CollectAccepted | daccord/src/protocol/paxos.rs:1077-1091 | its votes for open slots from a slot on, going through every instance once |
| PaxosProtocol.PaxosProtocol.HandlePrepareLeader | daccord/src/protocol/paxos.rs:1097-1138 | grants above its promise with its votes, refuses otherwise |
| PaxosProtocol.PaxosProtocol.HandleNackLeader | daccord/src/protocol/paxos.rs:1169-1183 | gives up the election |
| PaxosProtocol.PaxosProtocol.Highest | daccord/src/protocol/paxos.rs:1200-1216 | the loop over the reported votes keeps the highest per open slot |
| PaxosProtocol.PaxosProtocol.ReplayAccept | daccord/src/protocol/paxos.rs:1254-1296 | votes for a recovered value at the new number and asks for votes, or decides if alone |
| PaxosProtocol.PaxosProtocol.CompleteLeaderElection | daccord/src/protocol/paxos.rs:1191-1248 | takes office, moves past every slot in play and replays each recovered slot once |
| PaxosProtocol.PaxosProtocol.StartElection | daccord/src/protocol/paxos.rs:1001-1051 | stands at a round above all seen, and completes at once if alone |
| PaxosProtocol.PaxosProtocol.HandlePromiseLeader | daccord/src/protocol/paxos.rs:1143-1163 | counts promises for its own number and takes office with a quorum |
| PaxosProtocol.PaxosProtocol.HandleForward | daccord/src/protocol/paxos.rs:1307-1316 | a leader proposes a forwarded value, others ignore it |
| PaxosProtocol.PaxosProtocol.HandleMessage | daccord/src/protocol/paxos.rs:250-318 | each message does what its handler does |
| PaxosProtocol.PaxosProtocol.Propose | daccord/src/protocol/paxos.rs:1322-1338 | forwards to a known leader and remembers the value, proposes here otherwise |
| PaxosProtocol.PaxosProtocol.Rebroadcast | daccord/src/protocol/paxos.rs:807-825 | forgets the oldest recent decisions and announces the rest |
| PaxosProtocol.PaxosProtocol.ReproposeForwarded | daccord/src/protocol/paxos.rs:1343-1361 | proposes here the values forwarded too long ago, one after another |
| PaxosProtocol.PaxosProtocol.OnTick | daccord/src/protocol/paxos.rs:1400-1420 | retries, announcements, the leader's timers and late values, in that order |
| PaxosProtocol.PaxosProtocol.TakeDecisions | daccord/src/protocol/paxos.rs:241-243 | hands over what was emitted and not yet taken, once |

## Left out

- Agreement between Multi-Paxos nodes: the code does not keep the premises of the classic proof (`PaxosRules.ProposesTwice`, `PaxosRules.DecidesAnother`; a local proposal overwrites the slot's promise, acceptor state is not stored).
- PaxosProposals.PhaseTwoProposes: takes the numbers in Promise and Accepted messages to start at round 1, as those of every node do; round 0 marks an untouched instance (paxos.rs:130).
- PaxosProposals.DecisionHasQuorum: the same.
- Raft safety when AppendEntries of one term overtake each other on their way to a node: it fails, by `Reordering.SafetyNeedsOrder`.
- That timeouts, jitter, backoff and heartbeat cadence bring progress about: clocks and randomness are replaced by choices made from outside, and what is proved is that progress is always possible.
- 64-bit width of terms, rounds, log indexes and Multi-Paxos slots: they are unbounded here; the slots of the decision feed are bounded.
- Failing storage: a write either happens or the node goes down before it. The DuckDB and redb backends and `PaxosMemoryStorage` are not part of this model.
- Transports, encoding, gRPC wiring, configuration, status projection and the command line.
- The channel to the application, which drops decisions when it is full (node.rs:673-684): what is proved is about the decision list and the stored decisions.
- The capacity of the broadcast channel: a watcher that lags is a disconnection, which may come at any time.
- Re-proposing what `take_lost_proposals` returns (node.rs:584-594): in a run it is a client's proposal like any other.
- New identities on restart and changes of membership.
- Answers.CallersAnswered: assumes distinct nonces, which the source draws at random from 64 bits; `Completion.AnswersRight` says what happens to an answer without that.
