# The Raft core, modelled and proved

This project models the three variants of the consensus module in the repository and proves what
they promise their clients.

* `part2_commandsAndLogReplication/raft.go` (elections, replication, commitment, delivery) is modelled
  twice and the two are tied together: as a class `ConsensusModule` with the original's fields and
  loops (`ConsensusModule.dfy`), and as functions on node values (`NodeRules.dfy`), which are the
  contracts of the class's methods and the building blocks of the cluster.
* `part3_electionDynamicCluster/raft.go` and `testharness.go` (elections while servers are added) are
  modelled the same way, in `DynamicModule.dfy` and `Membership.dfy`. With no server ever added,
  `Membership` is also the election machine of `part1_election/raft.go`. The two variants differ in
  one place: part 3 ignores a heartbeat reply once the node no longer leads, part 1 does not. The
  field `checksRole` says which one is meant, and every theorem holds for both.

## The cluster

`Cluster` is a transition system for any number of servers. Each critical section under `cm.mu` is
one atomic step: a timeout, building a vote request (in a later critical section than the one that
started the election), handling a vote request, handling a vote reply, beginning a round of
heartbeats, building an append request, handling it, handling its reply, a client's command, and the
three things that happen in the commit sender. Messages are never removed from the network, so they
may arrive late, in any order, more than once, or never. A timeout may happen at any time to any
node that is not a leader. A vote goroutine handles at most one reply. A reply is kept together with
its request, as the Go closures keep `ni` and `entries`.

The slice that the commit sender reads after it has released the lock may share memory with the log.
The step `OverwriteReady` lets the log's present contents show through that slice at any moment;
`SharedSliceKeepsValues` shows that this never changes a value.

`reigns` and `wins` are history: which node won which term, and the log that the leader of each term
has had since. No handler reads them.

## Currentness

The original captures a term in its goroutines and does not always compare it with the node's
present term afterwards. There are three such places in part 2: a vote reply
(`raft.go:386-407`), the building of an append request (`raft.go:470-492`) and an append reply
(`raft.go:504`). `Cluster.Respects` states for each of them that the captured term is still current
where that matters, and the type `Guards` switches the three conditions on and off:

* A vote reply is counted, or makes a candidate yield to a term that it has already reached, only in
  the term of its election (`VoteReplyBears`).
* A request is built only while its sender is still in the term in which it began the round.
* An append reply is noted as progress, or moves `nextIndex` to where the log does not reach, only in the
  term of its request (`AppendReplyBears`).

All other late replies, such as those that only raise a term or do nothing, are handled whenever they
come. A theorem about runs has the conditions it assumes as a hypothesis on the `Guards` of the run:
elections, matching logs and the origin of entries need vote replies to be current, what requests carry
needs their senders to be so as well, and only commitment, delivery and the ranges of indices need all
three. `Currentness` shows that this is exact. In all reachable states (or, for terms that never fall, in all
runs), and given that clients have two different commands where the lemma says so:

| property | holds exactly if current |
|---|---|
| one leader per term; terms of nodes never fall | vote replies |
| logs match; terms never fall along a log | vote replies |
| no node has an entry of a term that it has not reached | vote replies and requests |
| deliveries of any two nodes agree; no index or slice is ever out of range | all three |

For each condition there are runs in which it alone is missing and safety is lost: a leader elected by an
old vote leads a term together with another, or replaces what is committed; a node that heard of an old
refusal falls back to a term below those of its entries; a deposed leader's late request makes a node commit
an entry that the leader of an earlier term then replaces; a leader commits what only an earlier term's
acknowledgement speaks for. Whichever is missing, some run ends with two nodes that have delivered different
commands at the same index. The delays that the original injects (at most 75 ms) are shorter than its
election timeouts (at least 150 ms), which is what makes the conditions plausible for replies.

`Membership.Respects` states the corresponding two conditions for parts 1 and 3, on vote replies in the
same form and on heartbeat replies that would make a node yield to a term it has already reached.
`StaleReplies.BothExactlyNeeded` shows for each of the two variants that over the runs of a cluster of fixed
membership no term ever has two leaders if and only if both are imposed, and `StaleReplies.TermsNeverFallIff`
the same for terms that never fall.

## What is proved

* Safety of every run of part 2: election safety, log matching, leader completeness, agreement of
  commits, state machine safety, immutability of committed prefixes, exact delivery, index safety, under the
  term comparisons listed above.
  The invariants behind them follow the code and not the paper where the two differ:
  `becomeFollower` clears the vote within a term, the follower commits up to
  `min(LeaderCommit, len(log)-1)`, vote arguments are read late, and `nextIndex` and `matchIndex` may
  move backwards.
* What can still happen: from every reachable state the run can go on to where every server delivers a new
  command (`Recovery.RecoveryIff`), exactly if there is more than one server; a single server never leads,
  since votes are counted only when a peer replies. In parts 1 and 3 any server of a fixed cluster can
  likewise take over (`Reelection.TakeoverIff`). No term comes from nowhere, and a leader gives up its term
  only for a later one (`ClusterTerms`, `MembershipTerms`); and leaders commit all they may
  (`CommitComplete`).
* `ElectionCore` isolates election safety. Part 2 and parts 1 and 3 are both shown to refine it, step by
  step. Its invariants do not need one configuration for all ballots of a term, only configurations
  whose majorities meet, which `Quorums.AlwaysMeetIff` characterises exactly.
* "One vote per node and term" is false of this code (`SecondVotes.VotingTwiceHappens`). `SecondVoteIff`
  says exactly when a node that campaigned in a term votes in it again, and that the term is then locked.
* In parts 1 and 3: one leader per term as long as the configurations of the term's elections have
  majorities that meet, hence during one `AddServer` however it interleaves with elections.
  `Additions.AdditionsSafeIff` says for every number of servers and every number of additions whether
  `AddServers` is safe while elections go on; two additions to two or more servers are safe exactly if
  the number of servers is even.

The proof of part 2 is layered: `ClusterElections` (refinement of `ElectionCore`), `ClusterLogs` (every
log is rooted in the logs of leaders), `ClusterChoice` (an entry stays choosable only while a majority
may still acknowledge it, and every later leader and every acknowledging node has what is choosable) and
`ClusterCommit` (commitment and delivery). The theorems about runs follow the conditions they need:
`ClusterLeaders` and `ClusterSorted` (vote replies), `ClusterSenders` (requests as well), `ClusterSafety`
(all three), and `ClusterOrigins` with some of each. `StaleVotes`, `StaleSnapshots` and `StaleProgress` are
the runs that go wrong without one of them.

The comment on `CommitEntry.Term` (`raft.go:24-25`) promises the term at which the command is committed. The
code takes the node's current term when its commit sender begins a round (`raft.go:560`) and sends it with
every entry of that round later on (`raft.go:574`), so nodes may differ on it. The model follows the code and
leaves that field out of what nodes agree on.

## Model

| member | source | states |
|---|---|---|
| `ClusterOrigins.LeaderCompleteness` | part2_commandsAndLogReplication/raft.go:201-204 | whatever a node commits at any moment of a run is in the log of every leader of a later term at every moment it leads, whether elected before or after |
| `Recovery.RecoveryIff` | part2_commandsAndLogReplication/raft.go:361-579 | from every state that a run with all three captured terms current can reach, whatever was lost, delayed, reordered or repeated on the way, the run can go on to where every server has delivered a given command after all that it had delivered before, if and only if the cluster has more than one server |
| `Recovery.Command` | part2_commandsAndLogReplication/raft.go:361-411 | from every such state of more than one server the run can go on to where some server leads in the latest term |
| `Recovery.Sync` | part2_commandsAndLogReplication/raft.go:464-533 | and from there a leader can bring any peer, whatever its term, role and log, to hold the leader's whole log and at least its commit index, by finitely many requests and answers |
| `CommitComplete.HeldIsCommitted` | part2_commandsAndLogReplication/raft.go:511-522 | at every moment of a run a leader has committed every entry of its own term that it knows peers to hold who with it are a majority |
| `ClusterSafety.StateMachineSafety` | part2_commandsAndLogReplication/testharness.go:171-234 | what any two nodes have delivered to their clients, at any two moments of a run, is one sequence of index and command continuing the other |
| `ClusterSafety.CommitsAgree` | part2_commandsAndLogReplication/raft.go:287-291 | the committed parts of any two logs at any two moments agree, and commit indices lie inside their logs |
| `ClusterSafety.CommittedPrefixImmutable` | part2_commandsAndLogReplication/raft.go:280-291 | over any stretch of a run a node's commit index never falls, stays below its log's length, and the log at or below it never changes |
| `ClusterSafety.DeliveryExact` | part2_commandsAndLogReplication/raft.go:556-579 | the k-th delivery has index k and the command at position k of the committed log, so there is no gap and no repetition |
| `ClusterSafety.SharedSliceKeepsValues` | part2_commandsAndLogReplication/raft.go:564-575 | the slice being delivered always equals the stretch of the log it may share memory with, so an append in place never alters a value still to be sent |
| `ClusterLeaders.ElectionSafety` | part2_commandsAndLogReplication/raft.go:386-407 | two leaders of the same term at any two moments of a run are the same node, if vote replies are current, whatever becomes of the other two captured terms |
| `ClusterLeaders.TermsNeverFall` | part2_commandsAndLogReplication/raft.go:391-401 | under the same one condition a node's term never falls over a run |
| `ClusterTerms.TermOrigin` | part2_commandsAndLogReplication/raft.go:361-364 | in every run, whichever captured terms are current, a term above 0 that any node is in was opened by a node that timed out in the term before |
| `ClusterTerms.DeposedLeaderLearns` | part2_commandsAndLogReplication/raft.go:295-501 | a request that reaches a node of a later term is answered, and whenever its sender handles the answer below that term it becomes a follower of it |
| `ClusterTerms.LateCandidateLearns` | part2_commandsAndLogReplication/raft.go:210-394 | a vote request that reaches a node of a later term is answered, and whenever its sender handles the answer as a candidate it becomes a follower of that term |
| `ClusterTerms.LeaderYieldsToLater` | part2_commandsAndLogReplication/raft.go:234-249 | if vote replies are current, a leader stops leading only by entering a later term, which some node's timeout opened |
| `ClusterLeaders.LogMatching` | part2_commandsAndLogReplication/raft.go:255-284 | under the same one condition two logs with the same term at the same index agree up to there, even logs of different moments |
| `ClusterLeaders.RequestMatching` | part2_commandsAndLogReplication/raft.go:474-491 | under the same one condition a log and a request in flight, even one built by a deposed leader, that have the same term at the same index agree on every carried entry up to there and on the previous entry |
| `ClusterSorted.TermsSorted` | part2_commandsAndLogReplication/raft.go:146-150 | under the same one condition terms never fall along any log and no leader's log is ahead of its term, although a deposed leader's late request may put other nodes' logs ahead of theirs |
| `ClusterSorted.WinnerNotAhead` | part2_commandsAndLogReplication/raft.go:401-407 | a candidate that wins has no entry of a later term in its log, although deposed leaders' late requests may put such entries into the logs of other candidates |
| `ClusterSenders.EntriesBounded` | part2_commandsAndLogReplication/raft.go:280-284 | if vote replies and requests are current, no node has an entry of a term that it has not reached |
| `ClusterSafety.IndexSafety` | part2_commandsAndLogReplication/raft.go:476-530 | in every reachable state every index and slice expression of a step offered there, including those of the commit loop, is in range, so the range conditions of the steps are never what forbids one |
| `ClusterSafety.IndicesBounded` | part2_commandsAndLogReplication/raft.go:506-530 | in every reachable state -1 <= lastApplied <= commitIndex < len(log), and at a leader 0 <= nextIndex <= len(log) and -1 <= matchIndex < len(log) for every peer |
| `ClusterSafety.CommitShortcut` | part2_commandsAndLogReplication/raft.go:280-289 | every request carries a commit index within what it conveys, and when accepting it raises the follower's, the result is the leader's, which equals both the code's minimum and that of Figure 2 of the Raft paper |
| `ClusterLeaders.CountedVotesSpeak` | part2_commandsAndLogReplication/raft.go:369-407 | if vote replies are current, when a step elects a leader, every peer counted granted its vote against the new leader's present last index and term, and the counter is the number of distinct voters including the leader |
| `ClusterSafety.StepKeepsInv` | part2_commandsAndLogReplication/raft.go:187-298 | the invariant of the whole cluster survives every enabled step of every node that meets the three currentness conditions, and terms, leaders' logs and messages only grow |
| `ClusterOrigins.EntryOrigin` | part2_commandsAndLogReplication/raft.go:141-152 | if vote replies are current, every entry of term t, in any log at any moment, was accepted from a client at the same index by the node leading term t at an earlier moment |
| `ClusterOrigins.ReignGrowsByOwn` | part2_commandsAndLogReplication/raft.go:146-150 | if vote replies are current, from its election on a leader's log is only extended, and only by entries of its own term |
| `ClusterOrigins.MatchIndexSound` | part2_commandsAndLogReplication/raft.go:504-530 | if a leader has matchIndex[p] >= k, then earlier in this term p handled an append request, had exactly the leader's entries 0 to k and answered with success, although late replies may move the maps back |
| `ClusterOrigins.AnswerOrigin` | part2_commandsAndLogReplication/raft.go:258-294 | if vote replies and requests are current, a successful append reply was sent right after its sender, in the request's term, held the leader's log as far as the request reaches |
| `ClusterLogs.SnapshotCarries` | part2_commandsAndLogReplication/raft.go:476-491 | a request carries a stretch of its sender's log that always reaches to the log's end, and its commit index lies inside that if the sender's lies inside its log |
| `ClusterChoice.CoveringLogHas` | part2_commandsAndLogReplication/raft.go:201-204 | a log whose last entry passes the up-to-date test against the holder of a choosable entry contains that entry and all before it |
| `ClusterChoice.StepKeepsChoice` | part2_commandsAndLogReplication/raft.go:201-211 | every step keeps: later leaders and acknowledging nodes have every entry a majority may still acknowledge, and votes were given against logs covering what the voter acknowledged |
| `ClusterChoice.ChoosableShrinks` | part2_commandsAndLogReplication/raft.go:514-521 | an entry that a majority may still acknowledge after a step could be acknowledged by a majority before it, so an entry once passed over stays passed over |
| `ClusterCommit.AdvanceCommits` | part2_commandsAndLogReplication/raft.go:511-522 | if matchIndex values were earned, an index the commit loop reaches is acknowledged by a majority in the leader's term |
| `ClusterCommit.AppendCommitMeaning` | part2_commandsAndLogReplication/raft.go:287-291 | an append request consistent with its leader's log leaves the committed prefix as it was, and if accepted gives the follower the leader's log as far as it reaches and the larger of the two commit indices |
| `ClusterLogs.MergeMeaning` | part2_commandsAndLogReplication/raft.go:259-284 | merging a request either changes nothing, when the log already agrees with all it conveys, or leaves exactly the leader's prefix that it conveys |
| `ClusterElections.StepRefinesCore` | part2_commandsAndLogReplication/raft.go:361-411 | every cluster step, seen without logs, is an enabled step of the abstract election machine |
| `ElectionCore.NoSecondWin` | part2_commandsAndLogReplication/raft.go:401-407 | in a term that is already won, with configurations whose majorities meet, no counted vote completes another majority, although votes are cleared |
| `ElectionCore.StepKeepsTermInv` | part2_commandsAndLogReplication/raft.go:246-249 | every step keeps: one win per term, the winner leads while in the term, and a candidate gives up its own vote within the term only when another node has won it |
| `SecondVotes.VotingTwiceHappens` | part2_commandsAndLogReplication/raft.go:247-249 | a run, with all currentness conditions met, in which a node that voted for itself votes for another node in the same term |
| `SecondVotes.SecondVoteIff` | part2_commandsAndLogReplication/raft.go:201-207 | if vote replies are current, a node asked in a term in which it campaigned votes exactly if it is a follower still in that term, has no vote for anybody else, and the candidate's log is recent enough; and then the term is locked |
| `SecondVotes.SecondVoteComesLate` | part2_commandsAndLogReplication/raft.go:422-427 | if vote replies are current, at any step that gives such a second vote the term already had another leader before, elected by a majority whose members, while in the term, have that leader for their vote |
| `SecondVotes.OneVoteForOthers` | part2_commandsAndLogReplication/raft.go:201-207 | if vote replies are current, the votes a node grants to others in one term all name the same candidate |
| `Currentness.AgreementIff` | part2_commandsAndLogReplication/raft.go:386-522 | what any two nodes have delivered is consistent in every reachable state if and only if all three captured terms are still current where that matters |
| `Currentness.RangeIff` | part2_commandsAndLogReplication/raft.go:464-527 | no step offered in a reachable state indexes or slices out of range if and only if all three are |
| `Currentness.OneLeaderIff` | part2_commandsAndLogReplication/raft.go:386-407 | every reachable state has one leader per term if and only if vote replies are current |
| `Currentness.TermsNeverFallIff` | part2_commandsAndLogReplication/raft.go:391-401 | in no run a node's term falls if and only if vote replies are current |
| `Currentness.LogsMatchIff` | part2_commandsAndLogReplication/raft.go:401-407 | in every reachable state all logs match if and only if vote replies are current |
| `Currentness.LogsSortedIff` | part2_commandsAndLogReplication/raft.go:391-407 | in every reachable state terms never fall along a log if and only if vote replies are current |
| `Currentness.TermsBoundedIff` | part2_commandsAndLogReplication/raft.go:470-492 | in every reachable state no node has an entry of a term it has not reached if and only if vote replies and requests are current |
| `Currentness.GuardsExactlyNeeded` | part2_commandsAndLogReplication/raft.go:386-407 | all of these safety properties together hold in all reachable states if and only if all three captured terms are current where that matters |
| `Currentness.StaleVoteReply` | part2_commandsAndLogReplication/raft.go:391-407 | without the first condition, even with the other two, some run has two leaders in one term |
| `Currentness.StaleVote` | part2_commandsAndLogReplication/raft.go:391-407 | and some run has two nodes deliver different commands at the same index, because a leader elected by an old vote replaces what is committed |
| `Currentness.StaleRefusal` | part2_commandsAndLogReplication/raft.go:391-401 | and in some run a node's term falls, because it hears late of a refusal |
| `Currentness.StaleSnapshot` | part2_commandsAndLogReplication/raft.go:470-492 | without the second condition, even with the other two, some run puts an entry of a later term into the log of a node that has not reached it |
| `Currentness.StaleRequest` | part2_commandsAndLogReplication/raft.go:470-492 | and some run has two nodes deliver different commands at the same index, because the leader of an earlier term replaces an entry that a deposed leader's late request made a node commit |
| `StaleProgress.StaleNextIndex` | part2_commandsAndLogReplication/raft.go:476-482 | in some reachable state a deposed leader has a nextIndex beyond its shortened log, and only the second condition keeps it from slicing there |
| `Currentness.StaleAppendReply` | part2_commandsAndLogReplication/raft.go:504-522 | without the third condition, even with the other two, some run of five servers has two nodes deliver different commands at the same index |
| `StaleProgress.StaleNoteOverruns` | part2_commandsAndLogReplication/raft.go:504-507 | and in some run a leader sets nextIndex beyond its own log and slices out of range in its next round |
| `StaleVotes.CutCommitted` | part2_commandsAndLogReplication/raft.go:562-566 | without the first condition some run cuts a log below its commit index, and the commit sender slices out of range |
| `Currentness.VoteReplyKeepsTermIff` | part2_commandsAndLogReplication/raft.go:391-401 | handling a vote reply lowers the node's term exactly when it is a candidate and the reply's term lies strictly between the old election's and its own |
| `Notifications.RunNotifies` | part2_commandsAndLogReplication/raft.go:524-527 | in every run, whichever terms are current, a node with committed entries that its commit sender has not taken has a notification waiting |
| `Notifications.IdleMeansDelivered` | part2_commandsAndLogReplication/raft.go:556-569 | a node with no notification and nothing left to send has delivered exactly what it committed, so coalesced notifications lose nothing |
| `CatchUp.LateRequestsHarmless` | part2_commandsAndLogReplication/raft.go:255-284 | if vote replies and requests are current, any two requests of one term that are ever in flight in a run, whose previous entries match a node's log, merge to the same log in either order, and that log has what each conveys |
| `CatchUp.DeliveryOrderIrrelevant` | part2_commandsAndLogReplication/raft.go:259-284 | the same for any log and requests matching one leader's log, with agreement with the leader's log up to the farther reach |
| `CatchUp.CatchUp` | part2_commandsAndLogReplication/raft.go:464-533 | a leader and a follower of one term in lockstep end with the leader's whole log in front of the follower's, and with the larger of the two commit indices at the follower, after exactly as many rejections as indices from nextIndex down to the point where the logs meet, at most len(log) |
| `CatchUp.RejectionStepsBack` | part2_commandsAndLogReplication/raft.go:528-531 | a rejected exchange lowers nextIndex by exactly one, changes nothing else, and cannot happen at 0 |
| `CatchUp.AcceptanceCompletes` | part2_commandsAndLogReplication/raft.go:505-507 | one accepted exchange gives the follower the leader's whole log and the larger of their two commit indices, and sets nextIndex and matchIndex to the log's length and last index |
| `CatchUp.LeadersArePaired` | part2_commandsAndLogReplication/raft.go:434-440 | at every moment of a run a leader and any follower of its term meet the conditions of the lockstep exchange |
| `NodeRules.Matching` | part2_commandsAndLogReplication/raft.go:262-273 | the number of leading new entries already in the log: terms agree before it, and where it stops one of the two ends or the terms differ |
| `NodeRules.CommitReaches` | part2_commandsAndLogReplication/raft.go:511-522 | the commit loop reaches every entry of the present term, above the commit index, that peers who with the leader are a majority are known to hold |
| `NodeRules.CommitHeld` | part2_commandsAndLogReplication/raft.go:511-522 | and it stops only at such an entry, or leaves the commit index as it was |
| `NodeRules.MergeSplices` | part2_commandsAndLogReplication/raft.go:259-284 | for any log and any entries: the log stays if it has entries of those terms there, and otherwise becomes what precedes them, then the old entries as far as their terms agree with the new ones, then the new ones |
| `ConsensusModules.ConsensusModule.constructor` | part2_commandsAndLogReplication/raft.go:101-127 | a new node is a follower of term 0 with no vote, an empty log and both indices at -1 |
| `ConsensusModules.ConsensusModule.RequestVote` | part2_commandsAndLogReplication/raft.go:187-214 | the vote is granted exactly if the request's term is at least the node's, the node has no other vote in it, and the last entry described is at least as recent as its own; the reply's term is the node's new term, which is the larger of the two; and the new state, all of it, is that of the vote rule of the cluster theorems |
| `ConsensusModules.ConsensusModule.AppendEntries` | part2_commandsAndLogReplication/raft.go:232-298 | the request is accepted exactly if its term is at least the node's and the previous entry matches; the reply's term is the node's new term, the larger of the two, also for an outdated request; on acceptance the log is merged and the commit index follows the leader's as far as the log reaches; all else stays, and the new state is that of the append rule of the cluster theorems |
| `ConsensusModules.ConsensusModule.MergeEntries` | part2_commandsAndLogReplication/raft.go:262-284 | the splice at the point of conflict changes the log, and only the log, to the specified merge |
| `ConsensusModules.ConsensusModule.FindConflict` | part2_commandsAndLogReplication/raft.go:262-273 | the loop stops at the first new entry that the log does not already have, judged by terms |
| `ConsensusModules.ConsensusModule.StartElection` | part2_commandsAndLogReplication/raft.go:361-369 | the node campaigns in the next term with its own vote, and the election it starts has that term and one vote |
| `ConsensusModules.ConsensusModule.HandleVoteReply` | part2_commandsAndLogReplication/raft.go:386-411 | a candidate becomes a follower of a later term it hears of, counts a vote of its election, and leads exactly if the votes are then a majority; other replies change nothing; with the peers counted from the peer list |
| `ConsensusModules.ConsensusModule.StartLeader` | part2_commandsAndLogReplication/raft.go:434-440 | the loop sets nextIndex to the log's length and matchIndex to -1 for exactly the peers |
| `ConsensusModules.ConsensusModule.Submit` | part2_commandsAndLogReplication/raft.go:141-152 | only a leader accepts, and then appends the command with its term |
| `ConsensusModules.ConsensusModule.BuildAppend` | part2_commandsAndLogReplication/raft.go:475-491 | the request carries the captured term, the leader's id and present commit index, the whole suffix from nextIndex on, and index and term of the entry before it |
| `ConsensusModules.ConsensusModule.HandleAppendReply` | part2_commandsAndLogReplication/raft.go:496-533 | a later term makes a follower; a success of the present term is noted in both maps and runs the commit loop; a rejection of it moves nextIndex to the request's previous index; other replies change nothing |
| `ConsensusModules.ConsensusModule.AdvanceCommitIndex` | part2_commandsAndLogReplication/raft.go:510-527 | the loop that raises commitIndex while it scans ends at the largest index, above the old one, of an entry of the present term that some majority is known to hold, or changes nothing if there is none, and notifies exactly when it changed |
| `ConsensusModules.ConsensusModule.CountHolders` | part2_commandsAndLogReplication/raft.go:513-518 | the count is one more than the number of peers whose matchIndex reaches the index |
| `ConsensusModules.ConsensusModule.TakeReady` | part2_commandsAndLogReplication/raft.go:559-567 | the critical section of a round takes exactly the entries between lastApplied and commitIndex |
| `ConsensusModules.ConsensusModule.SendNext` | part2_commandsAndLogReplication/raft.go:570-576 | one iteration hands the first of them to the client with the next index |
| `ConsensusModules.ConsensusModule.CommitRound` | part2_commandsAndLogReplication/raft.go:556-579 | one round without other steps in between delivers exactly the entries between lastApplied and commitIndex, each with its own index |
| `ConsensusModules.DeliverAllMeaning` | part2_commandsAndLogReplication/raft.go:571-576 | handing over a slice appends exactly its commands, in order, with consecutive indices, to what was delivered |
| `Quorums.AlwaysMeetIff` | part3_electionDynamicCluster/raft.go:307-309 | all majorities of a cluster and of a larger one meet if and only if the smaller is empty, at most one server was added, or two were added to an even number |
| `Membership.StepRefinesCore` | part3_electionDynamicCluster/raft.go:298-358 | every step of the growing cluster is an enabled step of the abstract election machine |
| `Membership.StepKeepsInv` | part3_electionDynamicCluster/raft.go:350-354 | every step keeps the election invariants, with each counter one more than its distinct voters and heartbeats sent only by winners |
| `MembershipSafety.TermSafety` | part3_electionDynamicCluster/raft.go:307-309 | whatever happens to the membership, a term whose elections used configurations with majorities that meet has at most one leader over the whole run |
| `MembershipSafety.ViewsSafety` | part3_electionDynamicCluster/raft.go:124-135 | if all views of the cluster that nodes are ever given have majorities that meet, no term ever has two leaders |
| `MembershipSafety.OneAdditionIsSafe` | part3_electionDynamicCluster/testharness.go:75-119 | if a fully connected cluster's only membership steps are those of adding one server, in any interleaving with elections, no term ever has two leaders |
| `MembershipSafety.OneAdditionView` | part3_electionDynamicCluster/testharness.go:108-117 | throughout such a run every node and every election sees the cluster either as before or as after the addition |
| `MembershipSafety.FixedClusterIsSafe` | part1_election/raft.go:261-305 | in a cluster whose membership never changes no term ever has two leaders |
| `MembershipSafety.TermsNeverFall` | part1_election/raft.go:316-325 | over any stretch of a run no node's term falls and no node disappears |
| `Reelection.TakeoverIff` | part1_election/raft.go:261-379 | for either variant, from every state that a run of fixed membership can reach, the run can go on to where a given server leads and all others follow it, if and only if the cluster has more than one server |
| `MembershipTerms.TermOrigin` | part3_electionDynamicCluster/raft.go:298-303 | in every run, whatever happens to the membership and whichever captured terms are current, a term above 0 that any node is in was opened by a node that timed out in the term before |
| `MembershipTerms.HeartbeatTells` | part3_electionDynamicCluster/raft.go:453-464 | the answer of a peer that was not ahead of a heartbeat leaves every node as it is whenever it is handled; that of a peer in a later term makes a leader that handles it a follower of that term |
| `MembershipTerms.LeaderYieldsToLater` | part3_electionDynamicCluster/raft.go:218-245 | in a term whose configurations meet, its leader stops leading only by entering a later term, which some node's timeout opened |
| `MembershipSafety.HeartbeatReplyKeepsTermIff` | part1_election/raft.go:373-377 | handling a heartbeat reply lowers the node's term exactly when the reply's term lies strictly between the captured and the present one and the role is not checked or is leader |
| `StaleReplies.BothExactlyNeeded` | part1_election/raft.go:281-301 | for either variant, over the runs of a cluster of fixed membership whoever leads a term, at any two moments, is the same node if and only if vote replies and heartbeat replies are both current where that matters |
| `StaleReplies.TermsNeverFallIff` | part1_election/raft.go:373-377 | for either variant, over such runs no node's term falls if and only if both are current where that matters |
| `StaleReplies.WinnerLed` | part1_election/raft.go:296-301 | if vote replies are current, the candidate of every election that was ever won led its term at some moment of the run |
| `StaleReplies.StaleVote` | part1_election/raft.go:286-301 | for either variant, without the condition on vote replies some run of fixed membership has two leaders of one term |
| `StaleReplies.StaleBeat` | part1_election/raft.go:373-377 | for either variant, even with the condition on vote replies, without the one on heartbeat replies a leader falls back to an earlier term and some run then has another node lead the term that it led |
| `Additions.AdditionsSafeIff` | part3_electionDynamicCluster/testharness.go:123-129 | in all runs of n connected servers whose membership steps are those of adding k servers, or the first of them, no term ever has two leaders, if and only if n + k is at most one more than the smallest cluster in which an election can be won, or two more and that is even |
| `Additions.TwoAdditionsSafeIff` | part3_electionDynamicCluster/testharness.go:123-129 | two consecutive additions to two or more servers while elections go on are safe if and only if the number of servers is even |
| `Additions.TwoLeaders` | part3_electionDynamicCluster/raft.go:307-309 | otherwise some run with exactly these membership steps ends with node 0 and the newest server leading the same term |
| `DynamicModules.ConsensusModule.SetPeers` | part3_electionDynamicCluster/raft.go:124-135 | the loop makes the peer set exactly the given ids without the node's own |
| `DynamicModules.ConsensusModule.PeerIdSlice` | part3_electionDynamicCluster/raft.go:139-145 | the slice lists every peer exactly once |
| `DynamicModules.ConsensusModule.RequestVote` | part3_electionDynamicCluster/raft.go:174-200 | the vote is granted exactly if the request's term is at least the node's and the node has no other vote in it; the reply's term is the node's new term, the larger of the two |
| `DynamicModules.ConsensusModule.AppendEntries` | part3_electionDynamicCluster/raft.go:218-245 | the heartbeat is accepted exactly if its term is at least the node's, which then follows; the reply's term is the node's new term, the larger of the two |
| `DynamicModules.ConsensusModule.StartElection` | part3_electionDynamicCluster/raft.go:298-309 | the election captures the new term, the peers of that moment and the size of the cluster they form |
| `DynamicModules.ConsensusModule.HandleVoteReply` | part3_electionDynamicCluster/raft.go:335-357 | a candidate becomes a follower of a later term it hears of, counts a vote of its election, and leads exactly if the votes are then a majority of the captured cluster size, whatever the peers are by now |
| `DynamicModules.ConsensusModule.SendHeartbeats` | part3_electionDynamicCluster/raft.go:423-431 | a leader addresses exactly its present peers in its present term, and any other node nobody |
| `DynamicModules.ConsensusModule.HandleHeartbeatReply` | part3_electionDynamicCluster/raft.go:453-464 | a reply of a term later than the captured one makes the node a follower of that term, if the role is not checked or is leader; other replies change nothing |
| `DynamicModules.Harness.constructor` | part3_electionDynamicCluster/testharness.go:32-70 | a new harness has servers 0 to n - 1, all connected and all knowing all others |
| `DynamicModules.Harness.AddServer` | part3_electionDynamicCluster/testharness.go:75-119 | the new server gets the next id, all servers end up knowing all others, older servers stay, and after each server is told exactly those told so far have the new view while everything else is as before |
| `DynamicModules.Harness.CreateServer` | part3_electionDynamicCluster/testharness.go:76-89 | the new server knows exactly the servers before it, which are as they were |
| `DynamicModules.Harness.UpdateMembership` | part3_electionDynamicCluster/testharness.go:108-117 | the loop leaves every server knowing exactly all other ids, telling one after the other |
| `DynamicModules.Harness.AddServers` | part3_electionDynamicCluster/testharness.go:123-129 | the k new ids are returned in order and every peer set ends equal to all other ids |
| `Growth.MomentsUnfold` | part3_electionDynamicCluster/testharness.go:108-117 | the nodes after each server told are exactly what the membership steps of the cluster model make of the nodes before |
| `Growth.AdditionTaken` | part3_electionDynamicCluster/testharness.go:75-119 | in any state with n servers the cluster can take these membership steps, in a row, and what they do is to make of its nodes exactly what the loop's moments say |
| `Growth.ApplyGrows` | part3_electionDynamicCluster/raft.go:124-135 | a membership step changes the nodes as the harness does, and nothing else |
| `Growth.AdditionSeesEither` | part3_electionDynamicCluster/testharness.go:108-117 | throughout the loop of AddServer each server of a connected harness sees the cluster as it was or as it will be |
| `Growth.AddServerAddsOnly` | part3_electionDynamicCluster/testharness.go:75-119 | each membership step that AddServer takes is one that OneAdditionIsSafe allows |

## Left out

- TCP, `net/rpc`, `Server`, `RPCProxy`, listeners, connecting and disconnecting: a set of messages that may be delayed, reordered, repeated or lost stands for them.
- Real time: tickers, timeout durations and their randomness, environment variables; a timeout is a step that may always happen, so a leader, or a delivery, is shown to be always possible but not to come eventually.
- `Stop`, the `Dead` state and the closing of channels: only live nodes are modelled. In part 2 a late reply can turn a stopped node into a follower again (raft.go:498-501), so being stopped would not be final.
- The capacity of `newCommitReadyChan` and blocking on channels: notifications are counted without a limit.
- `CommitEntry.Term`: the code sends the node's current term and not the entry's, and nodes may report different values, so agreement is about index and command.
- Crashes and restarts: the fields called persistent are never written anywhere.
- Aliasing of the outgoing entries while they are being encoded: a request is a value once it is built.
- `log` and `peers` are a `seq` and a `set` field that the methods reassign; sharing of memory between a log and its slices is modelled for the commit sender only.
- Removal of servers and joint consensus: the code has neither.
- ConsensusModules.ConsensusModule.CommitRound: states a round without other steps in between; TakeReady and SendNext are the two steps of the cluster that may be interleaved with others.
- ConsensusModules.ConsensusModule.HandleAppendReply: demands commitIndex >= -1, without which the commit loop would index below 0; IndicesBounded shows it for every reachable state.
- Debug output, `Report`, the log visualiser, timing measurements and the polling helpers of the test harnesses.
