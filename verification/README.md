# A verified model of the QUANTAS peers

QUANTAS is a round-based simulator of distributed algorithms. This project models the peers whose
behaviour is hardest to see from the code, and proves what they promise:

- **PBFT** (`PbftNode`, `PbftReplica`, `PbftRuns`, `PbftRounds`, `PbftRequests`, `PbftCarry`, `PbftCheckpoints`,
  `PbftSmall`, `PbftScenes`, `PbftStages`, `PbftLimits`): one replica with its five phases, as a value and as an object;
  runs of a whole committee with Byzantine members and an unreliable network; what happens to client requests, what a
  view change carries over and when checkpoints advance; and exactly for which committee sizes and across which views
  decisions agree.
- **Proof of work** (`BlockTree`, `PowLedger`, `LedgerFeeds`, `PowNetwork`, `PowDelivery`): the incrementally maintained
  block index against plain definitions, its confluence, the one block tree of a whole network of mining and withholding
  peers, and the one tip on which it comes to rest.
- **End-of-round analysis** (`BlockGraph`, `DagAnalytics`, `GhostAnalytics`): longest paths by worklist and by memoised
  recursion, the parent walk, memoised subtree weights and the GHOST path.
- **Raft-style replication** (`RaftNode`, `RaftQueues`, `RaftReplica`, `RaftRuns`, `RaftTimers`, `RaftDuties`, `RaftDelays`,
  `RaftElections`, `RaftLosses`, `RaftKnowledge`, `RaftScenes`, `RaftLimits`): terms, votes, timers, durability, request
  queues with nested calls, recorded delays; and exactly when a member stands for election, when a term has one leader,
  when requests are lost and what majorities know.
- **Routing** (`Bits`, `Kademlia`, `Chord`): greedy forwarding with strict progress and logarithmic hop counts, and what a
  lookup is accounted for when it arrives.
- **Data link** (`Channel`, `DataLink`): the bounded unreliable channel, and stop-and-wait over two of them: what it
  delivers, and that it can always go on.

`Quorums` holds the counting arguments shared by the two consensus protocols.

Code that updates objects in place is modelled by classes and methods; each method is tied to a function on values, and the
theorems about runs are about those functions. A run is a sequence of states joined by steps of single peers in any order.
Messages may be delayed, lost, duplicated and reordered: the network is the set of everything ever sent, or, for the data
link, the channels themselves. The clock, every random draw and the environment's choices are parameters of the steps.

Decisions worth knowing:

- The PBFT log is one sequence of messages in arrival order. Every insertion in the source files a message under the
  message's own sequence number, view and type, so reading a bucket is a search with a test on those fields.
- Digests are injective: a request stands for its digest, an executed log for its state digest. Hashes of blocks are
  strings with their lexicographic order.
- Integers are unbounded. A negative channel size behaves as the unsigned comparison in the source makes it behave.
- Timer draws are one deadline per handled event: where a handler draws twice, only the last draw is ever read.
- Raft members may also receive messages addressed to others, and clients may ask anybody for anything, under any key.
- PBFT agreement holds within a view for 3f+1 members, and for at most three; for every other size there is a run that
  breaks it (`PbftLimits.AgreementExactly`). Across views it does not hold, even with 3f+1 members: the proof carried over
  a view change stops before the next position and the new leader's message is not checked against it
  (`quantas/PBFTPeer/PBFTPeer.cpp:334`, `:592-613`; `PbftLimits.AcrossExactly`).
- The source counts Raft votes without looking at their term, and a commit raises the term of a leader
  (`quantas/RaftPeer/RaftPeer.cpp:264-290`, `:326-329`). A term has one leader in every run in which neither happens
  (`RaftElections.OneLeaderPerTerm`), and `RaftLimits` has a run against each of the two omissions.
- A Raft member loses a waiting request when it hears of a new leader while one is in flight
  (`quantas/RaftPeer/RaftPeer.cpp:206-208`), and when its nested start of replication is followed by a second one that does
  not look again for a request in flight (`:397-413`). `RaftLosses.LossExactly` shows that there is no other way.
- "Every later majority contains a member that knows every confirmed request" holds request by request
  (`RaftRuns.MajoritiesRemember`); for one member that knows all of them the number of requests decides
  (`RaftLimits.MajorityKnowsExactly`).

`dafny verify dfyconfig.toml` checks the whole project.

## Model

| member | source | states |
|---|---|---|
| `PbftRuns.Agreement` | quantas/PBFTPeer/PBFTPeer.cpp:481-521 | In every run with 3f+1 members, at most f of them Byzantine, under any delay, loss, duplication and reordering, two correct replicas that append a request at the same position in the same view append the same request |
| `PbftRuns.PreparedIsUnique` | quantas/PBFTPeer/PBFTPeer.cpp:88-143 | In every run with 3f+1 members, prepared certificates held by any two correct replicas for one (view, sequence) carry the same request |
| `PbftRuns.CertificatesAgree` | quantas/PBFTPeer/PBFTPeer.cpp:140-143 | From the run invariant alone: two requests that can both gather a prepare quorum in one slot are equal |
| `PbftRuns.QuorumsMeet` | quantas/PBFTPeer/PBFTPeer.cpp:60-61 | With N = 3f+1, any two sets of more than 2f members share a correct member |
| `PbftRuns.VotesAreUnique` | quantas/PBFTPeer/PBFTPeer.cpp:413-521 | In every run a correct replica sends at most one prepare and one commit per (view, sequence) |
| `PbftRuns.LogsOnlyGrow` | quantas/PBFTPeer/PBFTPeer.cpp:326-372 | Between any two moments of a run views never go back, executed logs only grow, and nothing sent or decided is forgotten |
| `PbftRuns.ExecutedWasPrepared` | quantas/PBFTPeer/PBFTPeer.cpp:140-148 | For every committee size: whatever a correct replica executes was prepared and committed by at least f+1 correct replicas, and stays at its position of that replica's log in every later state |
| `PbftRuns.CommittedWasPrepared` | quantas/PBFTPeer/PBFTPeer.cpp:445-521 | The same counts of correct preparers and committers, from the run invariant alone |
| `PbftRuns.FirstViewLogsAgree` | quantas/PBFTPeer/PBFTPeer.cpp:374-521 | While two correct replicas are still in view 0, the shorter executed log is a prefix of the longer one |
| `PbftRuns.RunInv` | quantas/PBFTPeer/PBFTPeer.cpp:374-643 | Every reachable state satisfies the invariant: one vote per slot, every vote already passed by its sender, every commit backed by a prepare quorum, every executed request backed by a commit quorum |
| `PbftRuns.StepKeepsInv` | quantas/PBFTPeer/PBFTPeer.cpp:259-316 | Each step of the system (delivery, client request, a call of a phase) keeps the invariant |
| `PbftRuns.PhaseStepFacts` | quantas/PBFTPeer/PBFTPeer.cpp:374-643 | What each of the five phases may send and decide: at most one vote, only in the slot it is working on and only with the certificate it needs |
| `PbftRuns.SlotIsNew` | quantas/PBFTPeer/PBFTPeer.cpp:413-479 | The slot in which a phase votes is one in which the replica has never cast that vote |
| `PbftRuns.PhaseKeepsVotes` | quantas/PBFTPeer/PBFTPeer.cpp:413-521 | A phase keeps at most one prepare and one commit per slot in the record of everything sent |
| `PbftRuns.PhaseKeepsDecisions` | quantas/PBFTPeer/PBFTPeer.cpp:481-521 | A phase keeps every decision backed by a commit quorum and in its peer's log |
| `PbftRuns.LogBacksVotes` | quantas/PBFTPeer/PBFTPeer.cpp:104-138 | The distinct senders counted in a log are members that really voted, or Byzantine ones |
| `PbftLimits.AgreementExactly` | quantas/PBFTPeer/PBFTPeer.cpp:60-61 | For every committee size n: in all runs of all valid committees of n members two decisions of one slot agree if and only if n leaves remainder 1 when divided by 3 or n is at most 3 |
| `PbftLimits.GroupsDisagree` | quantas/PBFTPeer/PBFTPeer.cpp:60-61 | For every other size a run, within the bound of f Byzantine members, in which two correct replicas execute different requests in one slot of view 0 |
| `PbftSmall.SmallCommitteesAgree` | quantas/PBFTPeer/PBFTPeer.cpp:382-411 | In every run of at most three members two decisions of one slot agree, although single votes are quorums there |
| `PbftSmall.SmallStateAgrees` | quantas/PBFTPeer/PBFTPeer.cpp:382-411 | The same from the invariant of such runs: a leader that makes two proposals for a slot has been told of the position by another member, who then votes for neither |
| `PbftSmall.PhaseKeepsSmall` | quantas/PBFTPeer/PBFTPeer.cpp:523-643 | Each phase keeps that invariant: proposals of a leader, re-issued ones, view changes and new views |
| `PbftSmall.PhaseSends` | quantas/PBFTPeer/PBFTPeer.cpp:374-643 | What each phase sends besides votes: proofs only of executed positions, carried ballots only from view changes and each position once, re-issued proposals only from a new view |
| `PbftSmall.AloneDecidesNothing` | quantas/PBFTPeer/PBFTPeer.cpp:387-412 | A member on its own never decides anything, because a leader does not prepare |
| `PbftLimits.AcrossExactly` | quantas/PBFTPeer/PBFTPeer.cpp:326-348 | For every f and all views v and w: in all runs of all valid committees of 3f+1 members, decisions at one position in v and in w agree if and only if v is w or f is 0 |
| `PbftLimits.ViewsDisagree` | quantas/PBFTPeer/PBFTPeer.cpp:326-348 | For every f >= 1 and all v < w a run of 3f+1 members, f of them Byzantine, with different decisions at one position in the views v and w |
| `PbftStages.GroupDecides` | quantas/PBFTPeer/PBFTPeer.cpp:413-521 | A group that makes a quorum with Byzantine helpers prepares and commits, and its first member executes |
| `PbftStages.GroupGivesUp` | quantas/PBFTPeer/PBFTPeer.cpp:326-372 | A group whose members have executed nothing leaves any number of views in a row, entering none of them |
| `PbftStages.GroupEnters` | quantas/PBFTPeer/PBFTPeer.cpp:582-643 | A group enters a view on the requests of a quorum and one message of its leader |
| `PbftStages.LeadStage` | quantas/PBFTPeer/PBFTPeer.cpp:542-574 | A correct leader announces its view, enters it and proposes its oldest client request in it |
| `PbftScenes.TimesOut` | quantas/PBFTPeer/PBFTPeer.cpp:326-372 | A replica that has executed nothing leaves its view, in whatever phase it is, with an empty proof, whatever it has prepared or committed to |
| `PbftScenes.EntersNewView` | quantas/PBFTPeer/PBFTPeer.cpp:582-643 | More than 2f requests and any new-view message of the leader let a replica into the new view; the proofs are not compared |
| `PbftScenes.RunsToPrepared` | quantas/PBFTPeer/PBFTPeer.cpp:413-441 | One call answers the leader's pre-prepare with a prepare and then waits |
| `PbftScenes.RunsToCommitted` | quantas/PBFTPeer/PBFTPeer.cpp:445-479 | A quorum of prepares makes one call send a commit and then wait |
| `PbftScenes.RunsToDecision` | quantas/PBFTPeer/PBFTPeer.cpp:481-521 | A quorum of commits makes one call execute the request and then wait for the next position |
| `PbftNode.PhaseProgress` | quantas/PBFTPeer/PBFTPeer.cpp:374-643 | Whenever a phase calls the next one, the measure (entering a new view, positions from nextSeq on with the leader's pre-prepare, phase rank) goes down, so one runPhase call always returns |
| `PbftNode.CommitUsesBacklog` | quantas/PBFTPeer/PBFTPeer.cpp:481-521 | Executing a request and starting over uses up one logged pre-prepare of the leader |
| `PbftNode.BacklogShrinks` | quantas/PBFTPeer/PBFTPeer.cpp:374-479 | Voting and pruning never add a pre-prepare to the backlog |
| `PbftNode.CheckpointOnlyPrunes` | quantas/PBFTPeer/PBFTPeer.cpp:189-206 | Advancing the stable checkpoint only removes log entries and changes neither view, phase, timer, executed log nor view-change anchor |
| `PbftRequests.CommitExecutes` | quantas/PBFTPeer/PBFTPeer.cpp:481-521 | Before its deadline a committing replica executes exactly when some proposal of the leader for its next position has commits of more than 2f members. It then executes the first such one, adds its delay to the latency, renews the deadline, announces every tenth execution, takes one copy of the request off its queue, and changes nothing else |
| `PbftRequests.RemoveTakesOut` | quantas/PBFTPeer/PBFTPeer.cpp:511-514 | Of the waiting requests the first entry that carries the executed one goes; if there is none, the queue stays as it is |
| `PbftRequests.TakenOutCounts` | quantas/PBFTPeer/PBFTPeer.cpp:511-514 | Taking a request out leaves one copy less of it and as many as before of every other request |
| `PbftRequests.InsertPutsIn` | quantas/PBFTPeer/PBFTPeer.cpp:50-53 | A request is queued behind everything that arrived in the same round or before, and before the rest |
| `PbftRequests.LeaderProposes` | quantas/PBFTPeer/PBFTPeer.cpp:387-412 | Before its deadline the leader proposes the head of its queue for its next position; with an empty queue it first submits a request of its own under an unused number to the committee and itself |
| `PbftRequests.NextProposal` | quantas/PBFTPeer/PBFTPeer.cpp:481-521 | A leader that executes a request proposes in the same call what is queued next, or a new request of its own; it is the same request again only if that one was queued twice or carries the leader's next number |
| `PbftRequests.QueuesInOrder` | quantas/PBFTPeer/PBFTPeer.cpp:259-316 | In every run every replica's requests wait in the order of the rounds in which they arrived |
| `PbftRequests.LatencyIsTotal` | quantas/PBFTPeer/PBFTPeer.cpp:503-505 | In every run a replica's latency is the sum, over all positions it has executed, of the rounds from submission to the step that executed it |
| `PbftCarry.CarriedOverIsLatest` | quantas/PBFTPeer/PBFTPeer.cpp:546-559 | Of all ballots in logged requests for the view, the announcement has for a position in the window one exactly if one was reported, it is of the latest reported view, the first one on ties, and positions ascend |
| `PbftCarry.BestIsLatest` | quantas/PBFTPeer/PBFTPeer.cpp:547-557 | The search over all proofs finds the first ballot of the latest proposal view for a position, or none fits |
| `PbftCarry.LatestIsUnique` | quantas/PBFTPeer/PBFTPeer.cpp:546-559 | These conditions determine the announcement: any two lists that meet them are equal |
| `PbftCarry.AnnouncesLatest` | quantas/PBFTPeer/PBFTPeer.cpp:523-580 | The leader of a view that more than 2f members ask for sends that announcement and nothing else; a smaller number leaves it waiting |
| `PbftCarry.LeavesExactly` | quantas/PBFTPeer/PBFTPeer.cpp:326-372 | In every phase a replica asks for the next view exactly when its deadline has passed, and then reports the first prepared pre-prepare of every position after its stable checkpoint and before its next one that has any |
| `PbftCarry.ReissuesAll` | quantas/PBFTPeer/PBFTPeer.cpp:616-635 | Entering a view issues one pre-prepare in the replica's own name for each announced ballot with a proposal, in order, and no other |
| `PbftCarry.EntersExactly` | quantas/PBFTPeer/PBFTPeer.cpp:582-643 | A replica enters exactly when its leader announced the view and more than 2f members ask for it, with a new window and a new deadline |
| `PbftCarry.ReportedIsReissued` | quantas/PBFTPeer/PBFTPeer.cpp:523-643 | Across two replicas: whatever was reported to the new leader for a position in its window, every replica that enters on its announcement proposes again a request reported for that position, of the latest view reported |
| `PbftCheckpoints.AdvancesExactly` | quantas/PBFTPeer/PBFTPeer.cpp:189-206 | The stable checkpoint moves to the next position exactly when that is a multiple of ten and more than 2f logged messages agree on its state; the window moves along, and exactly the messages for earlier positions leave the log, the rest in order |
| `PbftCheckpoints.TallyIsVotes` | quantas/PBFTPeer/PBFTPeer.cpp:153-165 | The tally of a digest is the number of logged checkpoint messages that carry it, counted by message and not by sender |
| `PbftCheckpoints.WindowsFollow` | quantas/PBFTPeer/PBFTPeer.cpp:189-206 | In every run every window starts at a stable checkpoint that is a multiple of ten and has been executed |
| `PbftCheckpoints.CheckpointsAreTrue` | quantas/PBFTPeer/PBFTPeer.cpp:168-186 | In every run a checkpoint message of a correct replica is the beginning of what that replica has executed |
| `PbftCheckpoints.EachLeadsOnce` | quantas/PBFTPeer/PBFTPeer.cpp:64-71 | Among as many consecutive views as there are members each member leads exactly one |
| `PbftReplica.Replica.FindPrePrepare` | quantas/PBFTPeer/PBFTPeer.cpp:88-102 | True exactly when the log holds the leader's well-formed pre-prepare for the slot and request |
| `PbftReplica.Replica.CountPrepares` | quantas/PBFTPeer/PBFTPeer.cpp:104-121 | The number of distinct senders of matching prepares |
| `PbftReplica.Replica.CountCommits` | quantas/PBFTPeer/PBFTPeer.cpp:123-138 | The number of distinct senders of matching commits |
| `PbftReplica.Replica.CountViewChanges` | quantas/PBFTPeer/PBFTPeer.cpp:532-540 | The number of distinct senders of view-change messages for the view being entered |
| `PbftReplica.Replica.FindAcceptable` | quantas/PBFTPeer/PBFTPeer.cpp:417-431 | The first logged pre-prepare of the leader for the next position, or none |
| `PbftReplica.Replica.FindPrepared` | quantas/PBFTPeer/PBFTPeer.cpp:455-466 | The first pre-prepare for the next position with a prepared certificate, or none |
| `PbftReplica.Replica.FindCommitted` | quantas/PBFTPeer/PBFTPeer.cpp:491-501 | The first pre-prepare for the next position with a commit certificate, or none |
| `PbftReplica.Replica.FindNewView` | quantas/PBFTPeer/PBFTPeer.cpp:592-602 | The first new-view message of the leader, or none |
| `PbftReplica.Replica.StableCheckpointReady` | quantas/PBFTPeer/PBFTPeer.cpp:153-165 | True exactly when more than 2f logged checkpoints of the position and view carry one digest |
| `PbftReplica.Replica.PruneLog` | quantas/PBFTPeer/PBFTPeer.cpp:201-205 | The log without the entries below the low water mark, in order |
| `PbftReplica.Replica.CollectProof` | quantas/PBFTPeer/PBFTPeer.cpp:333-348 | The first prepared pre-prepare of the old view for every position after the stable checkpoint and before the next one (`PbftCarry.ProofReportsPrepared`) |
| `PbftReplica.Replica.BestCarried` | quantas/PBFTPeer/PBFTPeer.cpp:547-557 | The first ballot of the latest proposal view that the logged view-change proofs carry for a position (`PbftCarry.BestIsLatest`), or none |
| `PbftReplica.Replica.CollectCarried` | quantas/PBFTPeer/PBFTPeer.cpp:546-559 | The carried ballots of all positions in the window, in order (`PbftCarry.CarriedOverIsLatest`) |
| `PbftReplica.Replica.Reissue` | quantas/PBFTPeer/PBFTPeer.cpp:619-635 | The pre-prepares re-issued in the new view, in the replica's own name |
| `PbftReplica.Replica.RunPhases` | quantas/PBFTPeer/PBFTPeer.cpp:374-643 | One call runs the phases until none follows, and returns; what each phase then does is stated by `PbftRequests` and `PbftCarry` |
| `PbftReplica.Replica.PerformComputation` | quantas/PBFTPeer/PBFTPeer.cpp:259-316 | All input is filed, client requests by round of arrival, then the phases run |
| `PbftRounds.RoundIsRun` | quantas/PBFTPeer/PBFTPeer.cpp:259-316 | A round of the object is a stretch of a run of the committee: one delivery for each message, one client step for each request, in order, and one call of the phase; so the theorems about runs hold of the objects |
| `PowLedger.Ledger.RegisterBlock` | quantas/Common/Pow.hpp:65-95 | Keeps the index right on every single-parent acyclic tree: every stored height is the exact distance to the top of its chain, child lists are exactly the known children, the tip is the maximum of all connected blocks; a known block only gains the parasite mark; the best height never goes down |
| `PowLedger.Ledger.constructor` | quantas/Common/Pow.hpp:44-55 | A new ledger holds GENESIS alone and its index is right |
| `PowLedger.Ledger.PropagateUpdates` | quantas/Common/Pow.hpp:295-313 | From an index that is right outside the new block's subtree to one that is right everywhere; the fallback is never taken |
| `PowLedger.Ledger.SearchSubtree` | quantas/Common/Pow.hpp:295-311 | The breadth-first pass terminates and settles the height and the tip of exactly the blocks under the new one |
| `PowLedger.Ledger.TakeBlock` | quantas/Common/Pow.hpp:299-311 | One turn: a block seen before is dropped, another is settled, and the remaining work shrinks |
| `PowLedger.Ledger.VisitBlock` | quantas/Common/Pow.hpp:303-310 | Recomputing, promoting and queueing the children keeps the frontier invariant |
| `PowLedger.Ledger.RecomputeHeight` | quantas/Common/Pow.hpp:240-259 | One more than the parent's height, 0 for GENESIS or a missing parent, everything else unchanged |
| `PowLedger.Ledger.MaxParentHeight` | quantas/Common/Pow.hpp:247-255 | The largest height among the parents, or -1 if one is missing |
| `PowLedger.Ledger.MaybePromoteBest` | quantas/Common/Pow.hpp:261-270 | The tip changes exactly when the block is connected and preferred |
| `PowLedger.Ledger.EnsureBestValid` | quantas/Common/Pow.hpp:272-293 | The tip is recomputed exactly when it is not connected, and then leads all connected blocks |
| `PowLedger.Ledger.ScanForBest` | quantas/Common/Pow.hpp:277-287 | Over any order of the records: a connected block that every other connected block loses to, or none |
| `PowLedger.Ledger.HasFullAncestry` | quantas/Common/Pow.hpp:221-238 | The search terminates and answers exactly whether the chain of parents reaches GENESIS |
| `PowLedger.AncestrySearch` | quantas/Common/Pow.hpp:221-238 | The same on the record map, with its stack and visited set |
| `PowLedger.Ledger.ChainToGenesis` | quantas/Common/Pow.hpp:143-158 | For a connected block a parent-linked path of height + 1 entries from GENESIS to it; for an orphan the linked path with GENESIS put before it |
| `PowLedger.PathFromGenesis` | quantas/Common/Pow.hpp:143-158 | The reversed climb, with GENESIS added only when it was not reached |
| `PowLedger.Climb` | quantas/Common/Pow.hpp:147-152 | Following first parents takes exactly height + 1 blocks and ends at the top |
| `PowLedger.Ledger.ParentsForNextBlock` | quantas/Common/Pow.hpp:118-120 | The one parent is the best connected block under (height, then smaller hash) |
| `PowLedger.Ledger.AddChild` | quantas/Common/Pow.hpp:85-91 | The block gets a child list and is appended once to each parent's |
| `PowLedger.ValidTipIsBest` | quantas/Common/Pow.hpp:261-270 | In a right index the stored tip is the unique best connected block of the tree |
| `PowLedger.VisitKeepsTip` | quantas/Common/Pow.hpp:303-304 | Visiting a block keeps the tip best among all settled blocks |
| `PowLedger.VisitKeepsHeights` | quantas/Common/Pow.hpp:303-304 | Visiting a block keeps the heights of all settled blocks exact |
| `PowLedger.SubtreeVisited` | quantas/Common/Pow.hpp:295-311 | When the queue is empty every block under the new one was visited |
| `PowLedger.TipGrows` | quantas/Common/Pow.hpp:65-95 | Adding a block never lowers the best height |
| `BlockTree.BestIsUnique` | quantas/BitcoinPeer/PoWBitcoin.hpp:31-39 | At most one connected block is best, so the tip is a function of the tree |
| `BlockTree.BeatsIsStrictOrder` | quantas/BitcoinPeer/PoWBitcoin.hpp:31-39 | The preference (height, then lexicographic hash) is total, transitive and asymmetric |
| `LedgerFeeds.Confluence` | quantas/Common/Pow.hpp:65-95 | Two ledgers with right indexes that hold the same announcements are equal: records, heights, OR-ed parasite marks, tip, and child lists up to order |
| `LedgerFeeds.FeedsConverge` | quantas/Common/Pow.hpp:65-95 | Two ledgers fed the same announcements in any orders, with any repetitions and orphans first, end equal, on the best tip of the tree heard of |
| `LedgerFeeds.Feed` | quantas/Common/Pow.hpp:65-95 | A new ledger fed any sequence of announcements holds exactly what it was told, with a right index |
| `LedgerFeeds.Hear` | quantas/BitcoinPeer/BitcoinPeer.cpp:424-448 | One announcement, new or repeated, adds exactly itself |
| `LedgerFeeds.CanRegister` | quantas/BitcoinPeer/BitcoinPeer.cpp:424-448 | An announcement of an existing block can be registered at any time, before or after its parent |
| `LedgerFeeds.HoldsOneMore` | quantas/Common/Pow.hpp:71-91 | The effect of one registration on the order-free content of a ledger |
| `PowNetwork.OneTree` | quantas/BitcoinPeer/BitcoinPeer.cpp:53-98 | In every run of mining, withholding, relaying and releasing peers all blocks ever mined form one acyclic tree connected to GENESIS |
| `PowNetwork.HashFixesBlock` | quantas/BitcoinPeer/BitcoinPeer.cpp:78-89 | In every run equal hashes in any ledger, private store or message carry the same single parent and miner |
| `PowNetwork.ReceptionIsSafe` | quantas/BitcoinPeer/BitcoinPeer.cpp:424-448 | In every run whatever reaches a peer can be registered without breaking its tree |
| `PowNetwork.SameViewSameTip` | quantas/Common/Pow.hpp:118-120 | In every run two peers that have heard of the same blocks have the same tip |
| `PowNetwork.BlockNameIsInjective` | quantas/BitcoinPeer/BitcoinPeer.cpp:79 | The name peer:transaction:round determines all three numbers and is never GENESIS |
| `PowNetwork.DecimalRoundTrip` | quantas/BitcoinPeer/BitcoinPeer.cpp:79 | Decimal printing can be undone and contains no colon |
| `PowNetwork.RunInv` | quantas/BitcoinPeer/BitcoinPeer.cpp:53-98 | Every reachable network state: parents are mined before children, names are taken in rounds already mined in, everything in circulation is genuine |
| `PowDelivery.AtRestAllAgree` | quantas/BitcoinPeer/BitcoinPeer.cpp:53-98 | In every run whose miners announce or keep back each block: once nothing is kept back and every announcement has arrived, every ledger holds every block ever mined and its tip is the best of them all, so all miners work on one block |
| `PowDelivery.RunIsPublic` | quantas/BitcoinPeer/BitcoinPeer.cpp:53-98 | In every such run each block ever mined is kept back by somebody or has reached, or is on its way to, every peer |
| `PowDelivery.CanComeToRest` | quantas/Common/ParasiteFault.hpp:146-169 | From any point of any such run releasing and delivering alone, without mining, lead to that state |
| `PowDelivery.ReleasedReachesAll` | quantas/Common/ParasiteFault.hpp:158-164 | A release puts every block kept back on its way to every peer |
| `PowDelivery.PrivateChain` | quantas/Common/ParasiteFault.hpp:51-99 | A peer that keeps a block back can mine on it in the next round, keep the new block back too and release both, which then have reached, or are on their way to, everybody |
| `DagAnalytics.ComputeHeights` | quantas/BitcoinPeer/BitcoinPeer.cpp:248-270 | The re-enqueueing worklist terminates on every acyclic graph and assigns exactly the blocks reachable from GENESIS the length of their longest path |
| `DagAnalytics.RelaxChildren` | quantas/BitcoinPeer/BitcoinPeer.cpp:257-269 | Relaxing the children of one block keeps every height witnessed by a path and lowers the work left |
| `DagAnalytics.HeightsAreLongest` | quantas/BitcoinPeer/BitcoinPeer.cpp:248-270 | Witnessed and fully relaxed heights are longest-path lengths, and cover exactly the reachable blocks |
| `DagAnalytics.LongestChain` | quantas/BitcoinPeer/BitcoinPeer.cpp:272-276 | The maximum height |
| `DagAnalytics.LongestChainIsDepth` | quantas/BitcoinPeer/BitcoinPeer.cpp:334-353 | The maximum height equals the longest way down from GENESIS |
| `DagAnalytics.LongestDepthFrom` | quantas/BitcoinPeer/BitcoinPeer.cpp:334-353 | The memoised recursion returns the longest way down, whatever correct memo it starts with |
| `DagAnalytics.WalkToGenesis` | quantas/BitcoinPeer/BitcoinPeer.cpp:291-317 | The parent walk from any block with a height reaches GENESIS in exactly that many steps, and tallies the marked blocks it meets |
| `DagAnalytics.PickParent` | quantas/BitcoinPeer/BitcoinPeer.cpp:305-313 | The first listed parent one level lower, if there is one |
| `DagAnalytics.ParentOneLower` | quantas/BitcoinPeer/BitcoinPeer.cpp:305-313 | Every block with a height above GENESIS has such a parent |
| `DagAnalytics.Aggregate` | quantas/BitcoinPeer/BitcoinPeer.cpp:212-246 | The union of all ledgers: recorded blocks and GENESIS, and exactly the recorded edges, both ways |
| `DagAnalytics.EndOfRound` | quantas/BitcoinPeer/BitcoinPeer.cpp:212-276 | On the union graph the reported length is the longest path from GENESIS, by worklist and by recursion alike |
| `GhostAnalytics.SubtreeWeight` | quantas/EthereumPeer/EthereumPeer.cpp:263-285 | The memoised weight is the number of blocks in the subtree, whatever correct memo it starts with |
| `GhostAnalytics.BestChild` | quantas/EthereumPeer/EthereumPeer.cpp:287-312 | Over any order of the children: the known child of maximal weight, then height, then smallest hash |
| `GhostAnalytics.GhostPath` | quantas/EthereumPeer/EthereumPeer.cpp:286-316 | The walk terminates at a leaf and takes the winner at every fork |
| `GhostAnalytics.SiblingsAreDisjoint` | quantas/EthereumPeer/EthereumPeer.cpp:276-280 | In a tree the subtrees of two children share no block, so their weights add up |
| `GhostAnalytics.GatherOne` | quantas/EthereumPeer/EthereumPeer.cpp:276-280 | Adding one child adds exactly its subtree's weight |
| `GhostAnalytics.GatheredAll` | quantas/EthereumPeer/EthereumPeer.cpp:276-280 | The block and the subtrees of all its children are its subtree |
| `GhostAnalytics.WinsIsStrictOrder` | quantas/EthereumPeer/EthereumPeer.cpp:302-304 | The order of the fork choice is total and transitive |
| `RaftRuns.OneWinnerPerTerm` | quantas/RaftPeer/RaftPeer.cpp:292-317 | In every run at most one candidate per term is ever backed by the vote messages of more than half of the members |
| `RaftRuns.VotesAreUnique` | quantas/RaftPeer/RaftPeer.cpp:292-317 | In every run a member casts at most one vote per term, and none in a term in which it stood itself |
| `RaftRuns.StatesOnlyGrow` | quantas/RaftPeer/RaftPeer.cpp:202-212 | In every run no member's term goes down and no known or committed request is forgotten |
| `RaftRuns.ConfirmedIsDurable` | quantas/RaftPeer/RaftPeer.cpp:234-262 | In every run a request confirmed anywhere is known to more than half of the members then and for ever after |
| `RaftRuns.MajoritiesRemember` | quantas/RaftPeer/RaftPeer.cpp:234-262 | In every run every later majority contains, for each confirmed request, a member that knows it |
| `RaftRuns.QueuesStaySound` | quantas/RaftPeer/RaftPeer.cpp:348-422 | In every reachable state each key waits at most once across in-flight, pending and deferred, every waiting key is valid and known, no pending key is committed, and the latency is the sum over the confirmed requests |
| `RaftRuns.RequestsKeepTheirOrder` | quantas/RaftPeer/RaftPeer.cpp:348-422 | In every run waiting requests never overtake each other, requeueing on elections included: the later queue is a subsequence of the earlier one followed by newly known keys |
| `RaftRuns.RunInv` | quantas/RaftPeer/RaftPeer.cpp:155-331 | Every reachable state: sound queues, distinct and genuine replies, committed keys backed by a majority, one vote per term, no vote while standing |
| `RaftRuns.InvKept` | quantas/RaftPeer/RaftPeer.cpp:155-331 | Each event at each member keeps that invariant and only grows the state |
| `RaftRuns.LearnedIsBacked` | quantas/RaftPeer/RaftPeer.cpp:250-261 | The responses that confirm a request come from more than half of the members |
| `RaftRuns.NewBallotsAreFresh` | quantas/RaftPeer/RaftPeer.cpp:292-317 | A vote or candidature is always for a term its sender had not reached before |
| `RaftRuns.HandleGoesWell` | quantas/RaftPeer/RaftPeer.cpp:155-331 | What one event may change and send, handler by handler |
| `RaftTimers.TurnsExactly` | quantas/RaftPeer/RaftPeer.cpp:155-451 | Whatever happens to a member: a tick before its deadline changes nothing and sends nothing; a tick at or after it raises the term by one, forgets leader and votes and asks for votes; a call for votes in a later term is followed and answered with one vote; the word of a leader of the term or a later one is followed; the vote that makes more than half makes it leader; the deadline moves at these events and when a request goes out, and at no other; nothing else touches term, leader, candidate, votes or the count of elections won |
| `RaftTimers.HearingKeepsTheLeader` | quantas/RaftPeer/RaftPeer.cpp:202-232 | Over any stretch of a run without a rival: a member that hears from its leader, or a leader that sends a request out, before each deadline it draws never stands, keeps its leader and wins no election |
| `RaftTimers.StandsExactly` | quantas/RaftPeer/RaftPeer.cpp:424-446 | After such a stretch the next tick makes the member stand in the next term if and only if it does not come before the last deadline drawn; otherwise the system stays as it is |
| `RaftTimers.StartResets` | quantas/RaftPeer/RaftPeer.cpp:384-451 | Nested calls included, starting replication moves the deadline exactly when a request goes out |
| `RaftDuties.FlushesExactly` | quantas/RaftPeer/RaftPeer.cpp:348-382 | A follower sends its leader each live deferred request that it has not sent it yet, once and in order, and marks it; a leader makes the live ones pending, unmarked; without a leader they wait; committed ones are dropped |
| `RaftDuties.FlushTwice` | quantas/RaftPeer/RaftPeer.cpp:369-378 | A second flush under the same leader sends nothing and changes nothing |
| `RaftDuties.TakesFirstLive` | quantas/RaftPeer/RaftPeer.cpp:400-421 | The dead requests at the front are dropped; the first live one goes in flight and to the group, with the current round noted on it and beside it |
| `RaftDuties.ClientIsHeard` | quantas/RaftPeer/RaftPeer.cpp:170-186 | A new valid request becomes known and waits in some queue, nested calls included; a number given to a request is spent |
| `RaftDuties.ClientIsForwarded` | quantas/RaftPeer/RaftPeer.cpp:170-186 | A follower sends a new request on to its leader at once, with the missing submitter, number and round filled in |
| `RaftDuties.ProduceIsHeard` | quantas/RaftPeer/RaftPeer.cpp:333-346 | A request of the member's own has its next number, which is spent, and waits |
| `RaftDuties.BackInTheQueue` | quantas/RaftPeer/RaftPeer.cpp:453-467 | Standing for election puts an uncommitted request in flight at the head of the queue and forgets its answers and its round |
| `RaftDuties.FollowingLetsGo` | quantas/RaftPeer/RaftPeer.cpp:202-212 | Following another leader drops the request in flight with its answers; hearing from the same one changes neither |
| `RaftDuties.ConfirmsExactly` | quantas/RaftPeer/RaftPeer.cpp:234-262 | A member records a confirmation, with its delay, exactly when the answer that makes more than half arrives, which it then announces to all, or on the announcement of another member; nothing else is recorded, committed or announced |
| `RaftDelays.DelaysAreHonest` | quantas/RaftPeer/RaftPeer.cpp:469-518 | In every run whose rounds do not go back, each confirmation at each member counts from a round in which a leader sent that request out to a round in which a leader counted a majority for it, and the latency of a member is their sum and never negative |
| `RaftDelays.HandleStamps` | quantas/RaftPeer/RaftPeer.cpp:405-415 | Every request that goes out bears the current round, and every round noted for a request is an old note or the current round of one that goes out |
| `RaftDelays.DecisionIsHonest` | quantas/RaftPeer/RaftPeer.cpp:252-257 | The delay of a decision starts in a round in which the request was sent out, also when the leader has lost its own note |
| `RaftQueues.HandleKeepsQueues` | quantas/RaftPeer/RaftPeer.cpp:348-422 | Every event keeps one member's queues sound, nested calls included |
| `RaftQueues.HandleMoves` | quantas/RaftPeer/RaftPeer.cpp:348-422 | Every event only removes waiting requests or appends newly known ones, in order |
| `RaftQueues.StartMoves` | quantas/RaftPeer/RaftPeer.cpp:384-422 | The nested start of replication keeps the order of the waiting requests |
| `RaftQueues.ResetMoves` | quantas/RaftPeer/RaftPeer.cpp:453-467 | Requeueing puts the request in flight back where it was in the order |
| `RaftQueues.ApplyMoves` | quantas/RaftPeer/RaftPeer.cpp:495-509 | Committing removes a key and keeps the order of the rest |
| `RaftQueues.RespondOutcome` | quantas/RaftPeer/RaftPeer.cpp:234-262 | A response is ignored, counted, or confirms the request: the three cases and their results |
| `RaftQueues.StartIsQuiet` | quantas/RaftPeer/RaftPeer.cpp:384-422 | Starting replication changes neither term, votes, commits, confirmations nor collected replies, and sends only requests |
| `RaftNode.SelfSubmitProgress` | quantas/RaftPeer/RaftPeer.cpp:391-398 | The nesting of a leader's own requests ends: each level uses up a number already taken or ends with a pending request |
| `RaftElections.OneLeaderPerTerm` | quantas/RaftPeer/RaftPeer.cpp:264-290 | In every run in which each vote delivered is of the receiver's term, and no commit of a later term reaches a member that leads, at most one member ever leads in each term, the initial leader included |
| `RaftElections.LeaderWasElected` | quantas/RaftPeer/RaftPeer.cpp:280-289 | In every such run whoever leads a later term than 0 has the votes of more than half of the members for that term |
| `RaftElections.GuardedStepKeeps` | quantas/RaftPeer/RaftPeer.cpp:155-331 | Each guarded event keeps: leaders are elected, requests are replicated by elected leaders only, votes answer candidatures, counted votes are of the current term |
| `RaftElections.HandleChange` | quantas/RaftPeer/RaftPeer.cpp:155-331 | How an event can make a member lead, change its counted votes, or make it announce something, handler by handler |
| `RaftLimits.TwoLeadersInOneTerm` | quantas/RaftPeer/RaftPeer.cpp:264-290 | Without the test on votes: a run of three members, two of whom lead term 3 on votes of terms 1 and 2 |
| `RaftLimits.LeaderIsOvertaken` | quantas/RaftPeer/RaftPeer.cpp:326-329 | Without the test on commits: a run of five members in which a commit of term 1 leaves the leader of term 0 leading beside the leader of term 1 |
| `RaftLosses.LossExactly` | quantas/RaftPeer/RaftPeer.cpp:155-446 | Of all events exactly two kinds lose a request that waited uncommitted: a request of a new leader while an uncommitted one is in flight, and the confirming response when nothing is pending and two or more live requests, the leader's own next one included, are started at once |
| `RaftLosses.OverwriteExactly` | quantas/RaftPeer/RaftPeer.cpp:384-422 | The same for starting replication alone: it loses a request exactly at an idle leader with nothing pending and two or more to start |
| `RaftLosses.ConfirmLoses` | quantas/RaftPeer/RaftPeer.cpp:469-493 | A confirming response loses a request exactly under the stated condition on the queues before it |
| `RaftLosses.ReplicateLoses` | quantas/RaftPeer/RaftPeer.cpp:202-212 | A replicated request loses a waiting one exactly when its sender is a new leader and an uncommitted request is in flight |
| `RaftLimits.OverwriteHappens` | quantas/RaftPeer/RaftPeer.cpp:384-422 | A run of three members over two terms that ends in the second kind of loss: an old leader's late request is overwritten |
| `RaftLimits.FlightIsDropped` | quantas/RaftPeer/RaftPeer.cpp:202-208 | A run of five members that ends in the first kind of loss |
| `RaftKnowledge.FewConfirmedAreKnown` | quantas/RaftPeer/RaftPeer.cpp:234-262 | In every run of N members in which m requests are confirmed, every majority has a member that knows all of them if m * (N - N/2 - 1) <= N/2 |
| `RaftKnowledge.FewConfirmedAreWidelyKnown` | quantas/RaftPeer/RaftPeer.cpp:234-262 | If nobody hears itself, the same already if m * (N - N/2 - 2) <= N/2 |
| `RaftKnowledge.LearnedIsWide` | quantas/RaftPeer/RaftPeer.cpp:250-261 | A leader that does not hear itself counts more than half of the members besides itself |
| `RaftLimits.MajorityKnowsExactly` | quantas/RaftPeer/RaftPeer.cpp:563-573 | For all N and m: in all runs of N members in which nobody hears itself, every majority has a member that knows all of any m confirmed requests if and only if m * (N - N/2 - 2) <= N/2 |
| `RaftLimits.RoundsForget` | quantas/RaftPeer/RaftPeer.cpp:234-262 | For all other N and m a run that confirms m requests and leaves a majority without a member that knows them all |
| `RaftReplica.Redirect` | quantas/RaftPeer/RaftPeer.cpp:356-381 | The deque rotation of a follower computes the live requests, marked, and the messages to the leader |
| `RaftReplica.Adopt` | quantas/RaftPeer/RaftPeer.cpp:356-367 | The deque rotation of a leader computes the live requests, unmarked |
| `RaftReplica.DropRequest` | quantas/RaftPeer/RaftPeer.cpp:531-561 | The deque without the given key, in order |
| `RaftReplica.Replica.TakeNext` | quantas/RaftPeer/RaftPeer.cpp:400-421 | Dead pending requests are dropped and the first live one goes in flight |
| `RaftReplica.Replica.TryStartReplication` | quantas/RaftPeer/RaftPeer.cpp:384-422 | Terminates, nested calls included, with the value-level result |
| `RaftReplica.Replica.OnClientRequest` | quantas/RaftPeer/RaftPeer.cpp:170-186 | Missing fields filled, the request deferred and forwarded, replication started |
| `Kademlia.HopIsCloser` | quantas/KademliaPeer/KademliaPeer.cpp:232-250 | Every hop, by finger or fallback, with a fresh or stale table, goes to a current neighbour at strictly smaller XOR distance, for identifiers below 2^bits |
| `Kademlia.LookupsNeverLoop` | quantas/KademliaPeer/KademliaPeer.cpp:119-148 | A lookup never comes back to a peer, whatever happens to tables and neighbours on the way |
| `Kademlia.LookupsAreLogarithmic` | quantas/KademliaPeer/KademliaPeer.cpp:119-148 | In a complete topology of N >= 2 peers a lookup takes at most ceil(log2 N) hops and stops nowhere but at the target |
| `Kademlia.GroupIsDistance` | quantas/KademliaPeer/KademliaPeer.cpp:286-294 | The first different bit brackets the XOR distance to within a factor of two |
| `Kademlia.SameGroupIsClose` | quantas/KademliaPeer/KademliaPeer.cpp:252-266 | Two peers of one group are closer to each other than to the peer that grouped them |
| `Kademlia.SamePrefix` | quantas/KademliaPeer/KademliaPeer.cpp:216-230 | Binary identifiers agree on a prefix exactly when the numbers agree above that bit |
| `Kademlia.CompleteHop` | quantas/KademliaPeer/KademliaPeer.cpp:232-250 | In a complete topology one hop at least halves the bound on the distance |
| `Kademlia.NeverStuck` | quantas/KademliaPeer/KademliaPeer.cpp:268-284 | In a complete topology some neighbour is always closer |
| `Kademlia.KademliaPeer.GetBinaryId` | quantas/KademliaPeer/KademliaPeer.cpp:216-230 | The lowest bits of the identifier, most significant first |
| `Kademlia.FirstDifferentBit` | quantas/KademliaPeer/KademliaPeer.cpp:286-294 | The first index at which the strings differ, or -1 |
| `Kademlia.KademliaPeer.RebuildFingerTable` | quantas/KademliaPeer/KademliaPeer.cpp:296-326 | Exactly one finger, a neighbour other than the peer, for each group that has one, filed under its group |
| `Kademlia.KademliaPeer.GroupNeighbors` | quantas/KademliaPeer/KademliaPeer.cpp:303-314 | Every neighbour that differs is in the bucket of its group, and the buckets hold nothing else |
| `Kademlia.KademliaPeer.PickFingers` | quantas/KademliaPeer/KademliaPeer.cpp:316-323 | One finger per bucket that is not empty, whichever is drawn |
| `Kademlia.KademliaPeer.SelectFingerForGroup` | quantas/KademliaPeer/KademliaPeer.cpp:252-266 | Some finger of the group that is still a neighbour, exactly when there is one |
| `Kademlia.KademliaPeer.SelectClosestByDistance` | quantas/KademliaPeer/KademliaPeer.cpp:268-284 | The closest neighbour if it is strictly closer than the peer, otherwise none is |
| `Kademlia.KademliaPeer.FindRoute` | quantas/KademliaPeer/KademliaPeer.cpp:232-250 | A permitted next hop, or nobody is closer |
| `Kademlia.KademliaPeer.HandleLookup` | quantas/KademliaPeer/KademliaPeer.cpp:119-148 | Arrival adds one request, the hops and the rounds since submission; otherwise the lookup goes on to a permitted neighbour, equal to the one received but for one more hop, the sender's name and a filled-in binary identifier, or nobody is closer |
| `Kademlia.KademliaPeer.SubmitLookup` | quantas/KademliaPeer/KademliaPeer.cpp:150-192 | A lookup for the peer itself is satisfied on the spot; any other starts out with one hop, the current round and the target's binary identifier, or nobody is closer |
| `Kademlia.ArrivalIsAccounted` | quantas/KademliaPeer/KademliaPeer.cpp:119-192 | Over any route: a lookup that arrives adds to the account of its target one request, the number of peers that handed it on, and exactly the rounds from its first submission to its arrival |
| `Kademlia.TripKeeps` | quantas/KademliaPeer/KademliaPeer.cpp:131-147 | On the way a lookup keeps transaction, origin, target and submission round, counts its hops and names the peer before |
| `Chord.ProgressExactly` | quantas/LinearChordPeer/LinearChordPeer.cpp:156-216 | A hop gets closer without passing the target if and only if some neighbour lies on the way |
| `Chord.SuccessorSuffices` | quantas/LinearChordPeer/LinearChordPeer.cpp:156-178 | With its successor as a neighbour a peer always gets strictly closer and never overshoots |
| `Chord.FingersTakeTheLeadingBit` | quantas/LinearChordPeer/LinearChordPeer.cpp:156-178 | With all fingers as neighbours a hop covers exactly the leading bit of the distance |
| `Chord.LookupsNeverLoop` | quantas/LinearChordPeer/LinearChordPeer.cpp:90-110 | If every peer knows its successor a lookup never comes back and takes at most the distance in hops |
| `Chord.ArrivalCountsOneBits` | quantas/LinearChordPeer/LinearChordPeer.cpp:90-110 | If every peer knows its fingers the number of hops is the number of one bits of the distance, at most the bit length of N-1 |
| `Chord.HopsAreOneBits` | quantas/LinearChordPeer/LinearChordPeer.cpp:90-110 | On the way, hops made and one bits left always add up |
| `Chord.NeverStuck` | quantas/LinearChordPeer/LinearChordPeer.cpp:180-216 | A peer that knows its successor always has somewhere to forward |
| `Chord.RingArithmetic` | quantas/LinearChordPeer/LinearChordPeer.cpp:162 | The remainders in the source are clockwise distance and clockwise steps |
| `Chord.ChordPeer.BuildFingerTable` | quantas/LinearChordPeer/LinearChordPeer.cpp:228-254 | One finger for every power of two below N, in order; none is skipped |
| `Chord.ChordPeer.ListFingers` | quantas/LinearChordPeer/LinearChordPeer.cpp:239-253 | The same as a value |
| `Chord.ChordPeer.CountBits` | quantas/LinearChordPeer/LinearChordPeer.cpp:233-237 | The bit length of N-1 |
| `Chord.ChordPeer.NextFinger` | quantas/LinearChordPeer/LinearChordPeer.cpp:245-246 | No finger is the peer itself or repeats the one before, so the two guards never fire |
| `Chord.ChordPeer.SelectFinger` | quantas/LinearChordPeer/LinearChordPeer.cpp:156-178 | The longest finger that is a neighbour and does not pass the target, or there is none |
| `Chord.ChordPeer.ChooseClockwiseNeighbor` | quantas/LinearChordPeer/LinearChordPeer.cpp:180-216 | The nearest neighbour clockwise, or nobody is on the ring ahead |
| `Chord.NearestWithin` | quantas/LinearChordPeer/LinearChordPeer.cpp:193-202 | The nearest neighbour ahead within a limit, over any order |
| `Chord.ChordPeer.HandleLookup` | quantas/LinearChordPeer/LinearChordPeer.cpp:90-110 | Arrival adds one request, the hops and the rounds since submission; otherwise the lookup goes on to a permitted neighbour, equal to the one received but for one more hop and the sender's name, or nobody is ahead |
| `Chord.ChordPeer.SubmitLookup` | quantas/LinearChordPeer/LinearChordPeer.cpp:112-147 | A lookup for the peer itself is satisfied on the spot; any other starts out with one hop and the current round, or nobody is ahead |
| `Chord.ArrivalIsAccounted` | quantas/LinearChordPeer/LinearChordPeer.cpp:90-147 | If every peer knows its fingers, a lookup that arrives adds one request, as many hops as the clockwise distance from its origin has one bits, and exactly the rounds from submission to arrival |
| `DataLink.SatisfiedIsDelivered` | quantas/StableDataLinkPeer/StableDataLinkPeer.cpp:35-132 | In every reachable state requestsSatisfied <= delivered <= requestsSatisfied + 1, and no ack is in a channel or input stream for a message not delivered |
| `DataLink.DeliveredInOrder` | quantas/StableDataLinkPeer/StableDataLinkPeer.cpp:88-95 | In every run each step delivers nothing or exactly the next number |
| `DataLink.RunInv` | quantas/StableDataLinkPeer/StableDataLinkPeer.cpp:35-132 | Every reachable state over two channels that drop, duplicate, delay and reorder satisfies the numbering invariant |
| `DataLink.InvKept` | quantas/StableDataLinkPeer/StableDataLinkPeer.cpp:35-132 | Each step of the link keeps it |
| `DataLink.AnswersExactly` | quantas/StableDataLinkPeer/StableDataLinkPeer.cpp:88-95 | Handling message k with k >= 0 sends exactly the acknowledgement of k and delivers k if it is new; a negative number changes nothing |
| `DataLink.RoundTrip` | quantas/StableDataLinkPeer/StableDataLinkPeer.cpp:77-95 | When the receiver handles the outstanding message and the sender then handles the answer, the satisfied requests go up by one and the next number is sent |
| `DataLink.ResendsExactly` | quantas/StableDataLinkPeer/StableDataLinkPeer.cpp:55-57 | While it waits the sender repeats the outstanding message exactly when the time-out has passed |
| `DataLink.NeverStuck` | quantas/StableDataLinkPeer/StableDataLinkPeer.cpp:35-132 | From every reachable state, whatever was lost, duplicated or reordered, and from any round on, some continuation in rounds that do not go back satisfies one more request, as long as both channels take one more packet |
| `DataLink.MessageArrives` | quantas/StableDataLinkPeer/StableDataLinkPeer.cpp:35-95 | A message anywhere in a channel can reach the receiver's input in the current round or a later one, whatever is queued before it |
| `DataLink.StableDataLinkPeer.DrainInStream` | quantas/StableDataLinkPeer/StableDataLinkPeer.cpp:42-53 | All messages received are handled in order |
| `DataLink.StableDataLinkPeer.PerformComputation` | quantas/StableDataLinkPeer/StableDataLinkPeer.cpp:35-58 | First submission, then the input, then a resend when it is due |
| `DataLink.SenderRoundIsRun` | quantas/StableDataLinkPeer/StableDataLinkPeer.cpp:35-58 | A round of the sender's object is a stretch of a run: a first submission, one step for each message received, in order, and a resend, with everything it sends put into its channel |
| `DataLink.ReceiverRoundIsRun` | quantas/StableDataLinkPeer/StableDataLinkPeer.cpp:42-53 | A round of the receiver's object is the answers to all it received, each put into its channel |
| `Channel.ChannelDiscipline` | quantas/Common/Abstract/Channel.cpp:59-98 | In every run: the queue never exceeds a non-negative size, accepted packets plus the budget left are the initial budget, accepted = delivered + queued as multisets, and every delivery comes in round packet.round + packet.delay or later, with a delay of at least one |
| `Channel.FirstInFirstOut` | quantas/Common/Abstract/Channel.cpp:87-98 | In every run without a reorder draw accepted is exactly delivered followed by queued |
| `Channel.PushAdds` | quantas/Common/Abstract/Channel.cpp:59-85 | A push only appends copies of one packet, each at least one round away, within size and budget |
| `Channel.ArrivedCount` | quantas/Common/Abstract/NetworkInterfaceAbstract.hpp:91-98 | The longest run of packets at the front with round + delay not after the current round, up to the limit |
| `Channel.ChannelObject.PushPacket` | quantas/Common/Abstract/Channel.cpp:59-85 | Terminates for every outcome of the duplicate draws, with the value-level result for the draws made |
| `Channel.ChannelObject.Receive` | quantas/Common/Abstract/NetworkInterfaceAbstract.hpp:82-100 | After any reordering a front of packets whose delays have passed is moved; then the queue is empty, or the limit is reached, or the delay of the front packet has not passed |
| `Channel.PushIsExact` | quantas/Common/Abstract/Channel.cpp:59-85 | A push adds, for each draw until the size or budget is used up, one copy with the drawn delay, or delay one if less was drawn |
| `Channel.AcceptsAtItsRate` | quantas/Common/Abstract/Channel.cpp:23-26 | From its set-up on a channel takes in at most what its receiver can take off it in the rounds left |

## Left out

- PowLedger.Ledger.RegisterBlock: requires a single parent and an acyclic tree for a new block, which all miners keep; with several parents the one-visit breadth-first pass leaves heights that depend on the order.
- Channel.ChannelObject.PushPacket: requires a non-negative size or budget; with both negative nothing in the source bounds the duplicate loop.
- Kademlia.HopIsCloser: is about identifiers below 2^bits, as the widths computed at start-up make them; above that, binary identifiers do not tell peers apart.
- DagAnalytics.ComputeHeights: is about acyclic graphs, which is what ledgers produce; on a cycle reachable from GENESIS the worklist in the source does not end.
- DagAnalytics.WalkToGenesis: without the source's use of an empty hash for "no parent".
- GhostAnalytics.GhostPath: is about trees without a block named by the empty string, which the source uses for "no child".
- PbftRuns.Agreement: compares positions within one view; across views the statement is false of this code, as `PbftLimits.AcrossExactly` shows. It says nothing about progress under a fair schedule; that stretches of a run reach a decision, a view change or a new view is stated by `PbftStages`.
- PBFT messages without the fields the source reads, other than a missing proposal; Byzantine members may send anything else under their own identifier.
- Raft exactly-once commits at followers, which the code does not enforce.
- The Ethereum ledger's tip rule, which depends on the order of arrival, with `subtreeSize` and `isAncestor`, which serve it.
- The alternating-bit peer, whose receiver may acknowledge before any data arrives.
- Topology planning: index arithmetic over fixed shapes. Planner and network run the same loops except for the ring and the unidirectional ring, which the planner closes by a remainder and the network by an extra edge, and for the planner's test against self-edges.
- PowDelivery.CanComeToRest: lets a withholding peer release at any time; the lead at which the source releases is not modelled, nor is a topology in which a broadcast does not reach everybody.
- Transaction queues of the mining peers, fork statistics and common-root selection at the end of a round.
- The fingerprint that triggers a rebuild of Kademlia tables: hops are closer with any table built at any time, so collisions do no harm.
- Message representation, sockets, message queues, coordinators, serialization, logging, configuration, probabilities and thread pools.
