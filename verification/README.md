# Raft and its key-value store, verified

A Dafny model of a C++ Raft implementation and of the replicated key-value store built on it, with
proofs of what every run of the system guarantees, and of exactly where it does not.

- **Raft cluster.** `RaftSteps` gives what each critical section of a node does, `RaftNode` is the
  node as a class whose methods and loops are proved to compute those steps, and `Cluster` interleaves the
  steps of all nodes. Requests stay in the network forever, so they may be delayed, duplicated, reordered or
  lost; timeouts are free choices. A run is any sequence of actions, and `After` is the cluster it leads to.
  History fields (ballots, elections, acknowledgements, commits) only record what happened. `Outcomes` says
  exactly when a vote is granted, a request accepted and a leader confirmed, and what every field is
  afterwards. `AnyRun` and `Validity` hold what is true of every run, `Progress` that no run is a dead end,
  `RaftTheorems` the guarantees under the conditions below, `Departures` and `LateAdoption` exactly where they end.
- **Key-value machine.** `KvCodec` is the byte format, `KvMachine` the deduplicating state machine as a
  function of the commands applied, `KvService` the server with its waiting requests and the client's retry
  loop, and `KvReplicas` puts servers on top of the cluster.
- **Concurrency inside a node.** `PeerWorker` is the handshake with a peer's worker thread, `ReadyQueue` the
  queue of applied results, and `Handover` the order in which results reach that queue.

## Where the program departs from the algorithm

- *Late adoption of a term* (`src/raft.cpp:116-128`). A candidate compares a reply's term in one critical
  section and adopts it in another. The cluster model has the two as separate actions. A run is `Prompt` if
  every adoption comes on time: the term is then still above the node's own, or equal to it with no vote cast.
  Over *all* runs, prompt or not, no index is applied with two commands if and only if the cluster has at most
  two nodes; the same holds for log matching and for the effect of an accepted AppendEntries on a log; and each
  term has at most one leader, and at most one creator of entries, if and only if the cluster has one node, or
  two that keep their votes (`LateAdoption`, with `SmallClusters` and `TwoVoters` for the safe side). For every
  larger cluster runs are constructed that break all five, votes kept or not. The other guarantees are stated for
  prompt runs only.
- *Forgotten votes* (`src/raft.cpp:324-328`). A leader that steps down for lack of a majority clears its vote
  without leaving the term. `Config.keepVote` is false for the program as written and true for the rule of the
  Raft paper. A cluster is `Steady` if it keeps votes, has an even number of nodes, or has one node. Over all
  *prompt* runs, each of the following holds if and only if the cluster is steady (`Departures`): at most one
  leader per term; no index applied with two commands; committed entries never cut; every request shows the
  entries up to the commit index it announces; every leader has the entry at its commit index; `matchIndex_` is
  sound; later leaders hold what was committed.
  For a cluster of three, five, seven... nodes that forgets votes, runs are constructed that break them. The
  theorems themselves hold for every `Peaceful` run, in any cluster: a prompt run in which no term has had two
  leaders. Log matching, the single creator of entries per term, and the effect of AppendEntries on a log hold for
  every prompt run of every cluster.
- *Results enqueued outside the lock* (`src/raft.cpp:333-334`). A leader enqueues after unlocking, the
  AppendEntries handler under the lock. In the cluster model `applied` is the order in which `last_applied_`
  advances; `Handover` says exactly when the queue sees the same order.
- *Stopping with work pending* (`inc/rafty/impl/raft.ipp:102`, `118-128`). A worker told to stop before it
  took its task never sets `done`; `PeerWorker` says exactly when a round is then stuck, for good.
- *Exactly once* (the repository's README). The table of latest replies executes every operation exactly
  once if and only if each client's operations first appear in the order of their sequence numbers
  (`KvMachine.ExactlyOnce`). They do at every node if every client goes on to its next operation only once the
  last one has been applied somewhere, however late the retries of earlier operations still come
  (`KvReplicas.PatientIsExactlyOnce`). A success reported by `propose_and_wait` means that; a success of the fast
  read (`inc/kv/kv_server.hpp:115-119`) does not. A Get answered from the store, an earlier attempt of which is
  proposed only after the client's next operation, is overtaken and never executes. `KvClient` also goes on after
  50 failed attempts.
- The repository's README gives election timeouts of 150 to 300 ms where the code draws 300 to 600 ms, and
  mentions log compaction, for which there is no code. Neither matters to the proofs.

## Model

| member | source | states |
|---|---|---|
| `ElectionSafety.Always` | src/raft.cpp:78-161 | Over every prompt run: votes, vote messages, counted votes and elections fit together; in particular each election rests on a majority of distinct ballots of its term, and a node's two ballots in one term come only from a leader that stepped down in it |
| `Outcomes.MajorityIsLeast` | src/raft.cpp:93 | A number of votes of which any two sets share a voter is at least the program's majority, and the majority is such a number |
| `Outcomes.UpToDateTotal` | src/raft.cpp:423-437 | Of any two logs one is up to date for the other |
| `Outcomes.BestCandidate` | src/raft.cpp:423-437 | Every group of nodes has one whose log is up to date for all the others |
| `Outcomes.VoteOutcome` | src/raft.cpp:401-445 | A vote is granted if and only if the term is not old, the vote is free or already the candidate's, and the candidate's log is at least as recent; the reply shows the larger of the two terms, which is the node's afterwards; and what every other field is |
| `Outcomes.BestGetsAll` | src/raft.cpp:401-445 | In every group, the node with the best log gets all the others' votes in a term that is new to them |
| `Outcomes.AppendOutcome` | src/raft.cpp:337-399 | A request is accepted if and only if its term is not old and the log has its previous entry; the reply shows the larger of the two terms, refused or not; and what every field is afterwards, commit clamp and applied results included |
| `Outcomes.StaysLeaderExactly` | src/raft.cpp:262-330 | A leader is still leader after a round if and only if no answer shows a newer term, and a majority has answered in its term or its time is not up |
| `Outcomes.DeposedOutcome` | src/raft.cpp:268-275 | The first answer of a newer term makes the leader a follower of that term without a vote, and leaves log, commit and applied results alone |
| `Outcomes.RoundOutcome` | src/raft.cpp:262-330 | Otherwise each answer moves the indices of its own peer, the commit index goes to the largest index of the current term that a majority stores, all up to it is applied, whether or not the leader then steps down |
| `Outcomes.RoundAsksAll` | src/raft.cpp:191-221 | In every run a round asks every peer exactly once, with the leader's term and commit index and all of its log from `nextIndex_` on |
| `Outcomes.OldLeaderLearns` | src/raft.cpp:268-275 | In every run, a leader that has asked a node of a higher term becomes a follower of that term by the node's answer |
| `Outcomes.OldLeaderCanLearn` | src/raft.cpp:341-344 | That answer is there once the node has handled the request |
| `Outcomes.OldCandidateLearns` | src/raft.cpp:116-128 | In every run, a candidate can learn a higher term from any node that is in one |
| `Progress.CanAlwaysCommit` | src/raft.cpp:35-335 | After every run of every cluster, whatever was lost, delayed or forgotten, and for every command, the run can go on so that a leader is elected, repairs its peers' logs, and commits and applies the command |
| `Progress.Elect` | src/raft.cpp:78-157 | From every reachable state some node can be elected by all the others |
| `Progress.RepairAll` | src/raft.cpp:280-288 | A leader followed by all can bring every peer, whatever its log, to accept its next request |
| `ElectionSafety.QuorumsMeet` | src/raft.cpp:93 | Any two majorities of the cluster share a node |
| `ElectionSafety.SharedVoter` | src/raft.cpp:324-328 | Two leaders of one term have exactly one common voter, the first of them, and only if votes are forgotten |
| `ElectionSafety.TwoLeadersNeedAll` | src/raft.cpp:83-93 | Two leaders of one term had every node's vote between them, so the cluster is odd and has three or more nodes |
| `ElectionSafety.AtMostTwo` | src/raft.cpp:140-142 | No term has three leaders |
| `ElectionSafety.LeadersPerTerm` | src/raft.cpp:78-149 | After every prompt run a term has had at most two leaders, at most one in a steady cluster, and a second one only with the vote of the first |
| `ElectionSafety.SteadyIsPeaceful` | src/raft.cpp:78-149 | No prompt run of a steady cluster has two leaders in a term |
| `LogMerge.MergeExact` | src/raft.cpp:370-382 | The append loop changes nothing up to the first conflict with the entries or the end of the log, and from there on leaves exactly the entries |
| `LogMerge.MergeMatching` | src/raft.cpp:370-382 | On logs that match, the loop yields the sender's whole log, or the follower's if that extends it |
| `LogMerge.AskOnce` | src/raft.cpp:209-216 | A follower in the leader's term accepts exactly when the logs agree on the term before `nextIndex_`; the leader then notes its whole log as matched, or else goes one entry back and the follower's log stays |
| `LogMerge.Repair` | src/raft.cpp:280-288 | The decrement loop ends after fewer rejections than the starting `nextIndex_`, even if the leader's log grows meanwhile, at the highest index where the logs agree; the follower then holds the leader's log from there on, all of it if the logs match, and the indices are set accordingly |
| `AnyRun.BaseAlways` | src/raft.cpp:78-161 | Over every run, however late terms are adopted: elections rest on ballots of a majority, counted votes answer this candidacy, a node never stands twice in a term, and replication indices fit the log |
| `LogSafety.LogsAlways` | src/raft.cpp:337-399 | Over every prompt run of every cluster: every log, request, ballot and election start is made of what the creator of each term wrote |
| `LogSafety.HandleAppendLog` | src/raft.cpp:359-382 | A request leaves a follower's log as it was or makes it the sender's log; rejected, it leaves the log alone |
| `LogSafety.NoEntriesBeforeElection` | src/raft.cpp:423-444 | Whoever can win an election finds no entries of its term anywhere: their creator would have refused its vote |
| `LogSafety.LeaderIsCreator` | src/raft.cpp:472-496 | A leader holds exactly the log that was created in its term, and created it itself |
| `LogSafety.RoundIsWellBuilt` | src/raft.cpp:195-221 | Every request of a round shows the leader's log from `nextIndex_` on, and looks into it in bounds |
| `CommitSafety.UpToDateHolds` | src/raft.cpp:423-437 | The up-to-date check at work: a winner that passed it against a voter with the committed log holds that log |
| `CommitSafety.LeaderCompleteness` | src/raft.cpp:291-300 | A committed log begins the starting log of every leader of every higher term |
| `CommitSafety.ScanFinds` | src/raft.cpp:291-300 | The descending scan stops at the largest index of the current term that a majority matches, or stays |
| `CommitSafety.NewCommitOk` | src/raft.cpp:291-300 | What the scan commits is acknowledged by a majority in the leader's own term |
| `CommitSafety.CommittedSurvives` | src/raft.cpp:374-378 | The truncation in the append loop never removes a committed entry |
| `CommitSafety.CommitsAlways` | src/raft.cpp:262-335 | Over every peaceful run: every commit index is covered by a commit that a majority acknowledged, and acknowledged logs are kept until a leader without them comes |
| `RaftTheorems.LogMatching` | src/raft.cpp:362-382 | In every prompt run, two logs, on any nodes at any two times, with the same term at an index are the same up to it |
| `RaftTheorems.LogMatchesRequest` | src/raft.cpp:209-216 | The same for a log and a request in flight |
| `RaftTheorems.OneCreatorPerTerm` | src/raft.cpp:472-496 | In every prompt run, once a node has appended an entry in a term, no other node ever leads that term; so a proposal's index and term name one command |
| `RaftTheorems.AcceptedLog` | src/raft.cpp:370-382 | In every prompt run an accepted request leaves the log unchanged or equal to the sender's at the time of sending; duplicates and older shorter requests never shorten it |
| `AnyRun.RequestsInBounds` | src/raft.cpp:203-216 | In every run, whenever a leader builds a request, `nextIndex_` is between 1 and one past the end of its log |
| `AnyRun.StillCandidate` | src/raft.cpp:101-142 | In every run, a node still candidate at the final check has the term and log it started with, and every counted vote is another peer's ballot for it in this term |
| `AnyRun.StillLeader` | src/raft.cpp:259-264 | In every run, a node still leader after its round is in the round's term and its log only grew |
| `RaftTheorems.CommitsAgree` | src/raft.cpp:291-300 | Of any two logs ever committed, one begins the other |
| `RaftTheorems.StateMachineSafety` | src/raft.cpp:291-309 | Every node has applied exactly its committed log, in order and each entry once, and of any two nodes' committed logs one begins the other |
| `RaftTheorems.NeverUndone` | src/raft.cpp:374-396 | Commit and apply indices only grow, and committed and applied entries stay for ever |
| `RaftTheorems.AppliedOnce` | src/raft.cpp:302-309 | No index is applied with two different commands, on any two nodes at any two times |
| `RaftTheorems.LeadersHoldCommitted` | src/raft.cpp:423-444 | What any node has committed begins the log of every later leader of a higher term |
| `RaftTheorems.MatchIndexSound` | src/raft.cpp:280-288 | As long as a peer stays in the leader's term, its log begins with as much of the leader's as `matchIndex_` says |
| `RaftTheorems.ClampIsSound` | src/raft.cpp:383-385 | No request announces a commit index past the entries it shows, so clamping by the follower's log length commits only what the leader had committed |
| `Validity.OnlyProposed` | src/raft.cpp:372-382 | In every run, every command in a log or request was proposed in it: nothing comes from nowhere |
| `Departures.UnsteadyRun` | src/raft.cpp:322-329 | Every cluster that is not steady has a prompt run with two leaders in a term and two commands applied at one index |
| `Departures.CutRun` | src/raft.cpp:374-378 | Every cluster that is not steady has a prompt run in which a node commits and applies two entries and then cuts them from its log |
| `Departures.OneLeaderExactlyWhenSteady` | src/raft.cpp:322-329 | At most one leader per term in all prompt runs, if and only if the cluster is steady |
| `Departures.SafeExactlyWhenSteady` | src/raft.cpp:322-329 | No index applied with two commands in all prompt runs, if and only if the cluster is steady |
| `Departures.NothingCutExactlyWhenSteady` | src/raft.cpp:374-396 | No node ever takes back a committed or applied entry in all prompt runs, if and only if the cluster is steady |
| `Departures.ClampExactlyWhenSteady` | src/raft.cpp:383-385 | Every request of all prompt runs shows the entries up to its `leaderCommit`, if and only if the cluster is steady |
| `Departures.MatchExactlyWhenSteady` | src/raft.cpp:280-288 | A peer in the leader's term holds what `matchIndex_` says in all prompt runs, if and only if the cluster is steady |
| `Departures.CompleteExactlyWhenSteady` | src/raft.cpp:423-444 | What any node had committed is in the log of every later leader of a higher term in all prompt runs, if and only if the cluster is steady |
| `Departures.CommitsHeldExactlyWhenSteady` | src/raft.cpp:302-321 | Every leader's log reaches to its commit index in all prompt runs, if and only if the cluster is steady |
| `LateAdoption.LateRun` | src/raft.cpp:116-128 | Every cluster of three or more nodes, votes kept or not, has a run with two leaders in a term that both create entries in it, two entries of one index and term, and two commands applied at one index |
| `LateAdoption.TwoNodeRun` | src/raft.cpp:116-128 | Two nodes that forget votes have a run with two leaders in a term that both create entries in it |
| `LateAdoption.MisreadRun` | src/raft.cpp:370-382 | Every cluster of three or more nodes has a run that leads to a request which, accepted, leaves a log that is neither the old one extended nor the sender's |
| `LateAdoption.OneLeaderExactlyWhenSmall` | src/raft.cpp:116-128 | At most one leader per term in all runs, prompt or not, if and only if there is one node, or two that keep their votes |
| `LateAdoption.SafeExactlyWhenSmall` | src/raft.cpp:116-128 | No index applied with two commands in all runs, prompt or not, if and only if there are at most two nodes |
| `LateAdoption.MatchingExactlyWhenSmall` | src/raft.cpp:116-128 | Logs with the same term at an index are the same up to it in all runs, prompt or not, if and only if there are at most two nodes |
| `LateAdoption.AcceptingExactlyWhenSmall` | src/raft.cpp:370-382 | An accepted request leaves the log as it was if that extends the sender's, else makes it the sender's, and a refused one leaves it alone, in all runs, prompt or not, if and only if there are at most two nodes |
| `LateAdoption.OneCreatorExactlyWhenSmall` | src/raft.cpp:472-496 | Only one node ever creates entries in a term in all runs, prompt or not, if and only if there is one node, or two that keep their votes |
| `LateAdoption.OneCreatorWhenPrompt` | src/raft.cpp:472-496 | Only one node ever creates entries in a term in every prompt run of every cluster |
| `AnyRun.CreatedExactly` | src/raft.cpp:472-496 | In every run, the recorded creators of entries in a term are exactly the leaders that a proposal found in it |
| `SmallClusters.ChainAlways` | src/raft.cpp:337-399 | In every run of at most two nodes all logs and requests form one chain that only grows, and whoever leads is ahead |
| `SmallClusters.SameApplied` | src/raft.cpp:302-309 | In every run of at most two nodes each has applied exactly its committed log, and one has applied all that the other has |
| `TwoVoters.OneLeaderOfTwo` | src/raft.cpp:401-445 | In every run of one node, or two that keep their votes, a term has at most one leader |
| `RaftNode.Node.constructor` | src/raft.cpp:19-33 | A new node is a follower in term 0 with an empty log |
| `RaftNode.Node.BeginWait` | src/raft.cpp:43-48 | The top of the loop tells a leader from the others and clears the heartbeat flag for these |
| `RaftNode.Node.StartElection` | src/raft.cpp:78-88 | Without a heartbeat, and unless leader, the node becomes candidate of the next term and votes for itself |
| `RaftNode.Node.MakeVoteRequest` | src/raft.cpp:102-107 | The request names the node's term and the end of its log |
| `RaftNode.Node.HandleVoteRequest` | src/raft.cpp:401-445 | The handler computes the vote step, grants exactly when the term, the vote and the log allow it, and answers with the larger of the two terms |
| `RaftNode.Node.TakeVoteReply` | src/raft.cpp:116-133 | A reply of a newer term is remembered and ends the asking; a grant counts once and ends it at a majority |
| `RaftNode.Node.AdoptNewer` | src/raft.cpp:122-128 | The newer term is adopted in a section of its own, whatever the node's term and vote have become |
| `RaftNode.Node.EndElection` | src/raft.cpp:138-147 | A node still candidate leads with a majority and follows without |
| `RaftNode.Node.SetUpLeader` | src/raft.cpp:148-157 | Every peer is to be sent what comes after the log, and matches nothing yet |
| `RaftNode.Node.MakeRequests` | src/raft.cpp:191-221 | The loop builds one request per peer, and none if the node no longer leads |
| `RaftNode.Node.EndRound` | src/raft.cpp:259-331 | The end of a round: replies, commit scan, applying; the node still leads exactly when no reply has a newer term and more than half have answered in its own, or its time is not up |
| `RaftNode.Node.ReadReplies` | src/raft.cpp:265-289 | The loop over replies, cut short by a newer term, refines reading them all |
| `RaftNode.DeposedIgnoresRest` | src/raft.cpp:268-275 | After a reply of a newer term, the remaining replies change nothing |
| `RaftNode.Node.CountMatching` | src/raft.cpp:293-295 | The inner loop counts the node and the peers that match an index |
| `RaftNode.Node.ScanForCommit` | src/raft.cpp:291-300 | The descending loop computes the commit scan |
| `RaftNode.Node.ApplyEntries` | src/raft.cpp:302-309 | The loop hands over the entries between the two indices, in order |
| `RaftNode.Node.HandleAppend` | src/raft.cpp:337-399 | The handler computes the AppendEntries step, accepts exactly when the term is not old and the previous entry is there, answers with the larger of the two terms, and notes the heartbeat unless the term is stale |
| `RaftNode.Node.StoreEntries` | src/raft.cpp:370-382 | The loop that skips, truncates and appends computes the merge |
| `RaftNode.Node.ProposeCommand` | src/raft.cpp:472-496 | A leader appends the command in its term and returns its index; others return 0 |
| `KvCodec.AllocationIsExact` | inc/kv/kv_server.hpp:158-161 | The 32-bit sum of the sizes is the record's size if and only if header, key and value together are shorter than 2^32 |
| `KvCodec.BufferIsEnough` | inc/kv/kv_server.hpp:158-170 | The bytes written lie in the buffer if and only if the record, with its lengths cut to 32 bits, fits in 32 bits |
| `KvCodec.Serialize` | inc/kv/kv_server.hpp:155-173 | Whenever the buffer holds them, the bytes written field after field are exactly those of the record with its lengths cut to 32 bits, which is the record itself if these fit |
| `KvCodec.Deserialize` | inc/kv/kv_server.hpp:175-206 | Reading through the data with a pointer, in bounds for every input, computes the decoder |
| `KvCodec.NumberRoundTrip` | inc/kv/kv_server.hpp:165-169 | A number stored in enough bytes reads back as itself |
| `KvCodec.DecodesExactly` | inc/kv/kv_server.hpp:175-206 | Data decode to a record if and only if its lengths fit their fields and the data begin with its bytes |
| `KvCodec.WireFormat` | inc/kv/kv_server.hpp:155-173 | The bytes of a record, one by one: operation byte, client id, sequence number, key and value after their lengths, least significant bytes first |
| `KvCodec.PrefixFree` | inc/kv/kv_server.hpp:155-206 | No record's bytes begin another's |
| `KvMachine.TableAlways` | inc/kv/kv_server.hpp:44-78 | After every history the table holds, for each client, its operation of largest sequence number and the answer given when it executed |
| `KvMachine.OnlyExecutionCounts` | inc/kv/kv_server.hpp:34-78 | Malformed and duplicate commands change neither store nor table |
| `KvMachine.ExecutesExactly` | inc/kv/kv_server.hpp:44-67 | A command executes if and only if it is the first of its operation and no larger sequence number of its client came before |
| `KvMachine.AtMostOnce` | inc/kv/kv_server.hpp:44-67 | No operation executes twice |
| `KvMachine.ExecutedUnlessOvertaken` | inc/kv/kv_server.hpp:47-52 | An operation ever executes if and only if its first command was not overtaken |
| `KvMachine.ExactlyOnce` | inc/kv/kv_server.hpp:44-78 | The executed commands are the first ones of all operations if and only if each client's operations arrive in order |
| `KvMachine.StoreIsPlain` | inc/kv/kv_server.hpp:54-78 | For every history, the store is that of a server without a table fed only the effective records |
| `KvMachine.RetriesDoNotShow` | inc/kv/kv_server.hpp:54-78 | When operations arrive in order, the store is that of executing each operation once, whatever retries the log holds |
| `KvMachine.KeyHolds` | inc/kv/kv_server.hpp:54-67 | A key holds the value last put to it followed by everything appended since, in order |
| `KvMachine.LookupExactly` | inc/kv/kv_server.hpp:54-67 | After every history, looking a key up yields a value if and only if it is what the effective commands last put there, followed by all they appended since |
| `KvMachine.AnswerExactly` | inc/kv/kv_server.hpp:40-67 | A command is answered with success and, if it is a Get, with the value that the effective commands before it left under the key, else with none; and with nothing else |
| `KvMachine.ReplyComesFrom` | inc/kv/kv_server.hpp:47-96 | A reply is the right one for the client's latest operation, given when it executed; it is the own operation's answer if and only if nothing overtook it |
| `KvService.KvServer.OnApply` | inc/kv/kv_server.hpp:26-97 | A result updates store, table and waiters as specified and tells the waiter at its index: a timeout if the command is not its own, the cached reply of a duplicate, and else success, with the value stored under the key for a Get |
| `KvService.KvServer.NotifyWaiter` | inc/kv/kv_server.hpp:208-223 | The waiter at an index is told the reply if it is its own operation's, else a timeout, and removed |
| `KvService.KvServer.BeginWait` | inc/kv/kv_server.hpp:237-252 | A non-leader answers at once; a leader registers the request under the proposal's index |
| `KvService.KvServer.GiveUp` | inc/kv/kv_server.hpp:254-258 | A request out of time is told a timeout and its index is cleared |
| `KvService.KvServer.TryLeaderRead` | inc/kv/kv_server.hpp:225-235 | With a lease, the value in the store, or the empty value |
| `KvService.ServiceAlways` | inc/kv/kv_server.hpp:26-97 | Over every interleaving of results, registrations and give-ups: the machine is that of the results taken, the last index noted is that of the last well-formed one, every answer is right (success if and only if the entry at the index has the waiter's client and sequence number), and every request is answered once, waiting, or dropped |
| `KvService.WaiterIsAnswered` | inc/kv/kv_server.hpp:80-96 | In every run, a request that registers before the result at its index arrives is answered when it does; one that registers later waits until it gives up |
| `KvService.SuccessMeansExecuted` | inc/kv/kv_server.hpp:80-96 | A success, not overtaken, belongs to exactly one execution at or before its index, and tells a Get the value that the effective commands before that execution left under its key |
| `KvService.KvClient.Call` | inc/kv/kv_client.hpp:56-129 | All attempts make the same request under one new sequence number, replicas asked in turn; success if and only if one of at most 50 attempts succeeds, with the first such answer; next time the replica that gave it, or else the one after the last, is asked first |
| `KvReplicas.HandsOverCommitted` | src/raft.cpp:302-309 | A node hands over the commands of its committed log, numbered from 1 |
| `KvReplicas.ReplicasAgree` | inc/kv/kv_server.hpp:26-97 | Servers at any nodes and times that have taken equally many results hold the same store and table |
| `KvReplicas.ReadsCommitted` | inc/kv/kv_server.hpp:225-235 | A read from the store is what the effective commands of a prefix of the committed log put and appended to the key, of this node's log and of every node's that committed as much; never an uncommitted write |
| `KvReplicas.SuccessEverywhere` | inc/kv/kv_server.hpp:237-261 | An operation reported as successful, not overtaken, executes at one and the same position of every node that ever comes as far, and was told the right reply there |
| `KvReplicas.WaitingIsEnough` | inc/kv/kv_client.hpp:56-79 | As long as its client has proposed no later operation, an operation told as successful has not been overtaken |
| `KvReplicas.HandedOverWasProposed` | src/raft.cpp:302-309 | Every command handed over was proposed |
| `KvReplicas.ClientSuccess` | inc/kv/kv_client.hpp:56-129 | End to end: for a client that waits for one operation before the next, a success is executed at one position of every node that ever comes as far, and what was told is the right reply there |
| `KvReplicas.PatientIsExactlyOnce` | inc/kv/kv_client.hpp:56-129 | If every client goes on only once its last operation has been applied somewhere, with any number of retries that may come at any time later, then at every node each operation has executed exactly once, and the store is what executing each once makes it |
| `PeerWorker.Always` | src/raft.cpp:225-257 | Over all interleavings: `done` is false exactly while a task is pending, running or just finished; tasks complete in order and once; whoever sleeps has nothing to do, or is about to be woken by `kill` |
| `PeerWorker.NeverBothAsleep` | inc/rafty/impl/raft.ipp:98-111 | The two threads never sleep at once, so one signal is enough |
| `PeerWorker.RoundsComplete` | src/raft.cpp:251-257 | When a round returns, every task posted has completed |
| `PeerWorker.NeverStuck` | inc/rafty/impl/raft.ipp:98-111 | Four steps complete any posted round, unless (exactly then) the worker was told to stop with the task pending |
| `PeerWorker.Stranded` | inc/rafty/impl/raft.ipp:118-128 | Once the worker is told to stop with a task pending, the round never ends |
| `PeerWorker.StopEnds` | inc/rafty/impl/raft.ipp:118-128 | A worker told to stop ends once it is signalled, after no more than its own task |
| `PeerWorker.StopCanStrand` | inc/rafty/impl/raft.ipp:118-128 | Stopping a worker can bring that about |
| `ReadyQueue.MessageQueue.Offer` | inc/toolings/msg_queue.hpp:63-77 | One pass of `enqueue`: appends exactly when the queue is open and below its bound; refuses when closed, else waits |
| `ReadyQueue.MessageQueue.Take` | inc/toolings/msg_queue.hpp:84-94 | One pass of `dequeue`: waits when empty, yields nothing when closed, else removes the front |
| `ReadyQueue.MessageQueue.TryDequeue` | inc/toolings/msg_queue.hpp:96-104 | Removes and returns the front, if any |
| `ReadyQueue.MessageQueue.Close` | inc/toolings/msg_queue.hpp:106-118 | Closes once |
| `ReadyQueue.OfferExactly` | inc/toolings/msg_queue.hpp:66-76 | An item gets through if and only if the queue is open and below max(1, buffer size), and waits if and only if it is open and not below |
| `ReadyQueue.TakeExactly` | inc/toolings/msg_queue.hpp:84-94 | An item is taken if and only if the queue is open and not empty |
| `ReadyQueue.FillsUp` | inc/toolings/msg_queue.hpp:63-82 | As many producers as the bound allows get their items in; with a buffer none of them waits |
| `ReadyQueue.BoundIsReached` | inc/toolings/msg_queue.hpp:63-82 | For every buffer size some run fills the queue to exactly the bound |
| `ReadyQueue.CanDrain` | inc/toolings/msg_queue.hpp:84-94 | From every state of an open queue, one consumer can take all that is queued, in order |
| `ReadyQueue.CloseReleases` | inc/toolings/msg_queue.hpp:106-118 | Once closing is announced, every call under way ends with its next stretch |
| `ReadyQueue.Always` | inc/toolings/msg_queue.hpp:63-118 | Over all interleavings: delivered then queued items are the accepted ones, in order, and at most max(1, buffer size) are queued |
| `ReadyQueue.SentMeansTaken` | inc/toolings/msg_queue.hpp:79-81 | An unbuffered `enqueue` returns only after its own item was taken, or the queue closed |
| `ReadyQueue.ClosedIsFinal` | inc/toolings/msg_queue.hpp:73-89 | A closed queue accepts nothing, and delivers nothing except to `try_dequeue` |
| `ReadyQueue.NoLostWakeup` | inc/toolings/msg_queue.hpp:66-118 | Between `enqueue`, `dequeue` and `close`, whoever sleeps has to, or is about to be woken by `close` |
| `ReadyQueue.NeverBothAsleep` | inc/toolings/msg_queue.hpp:66-93 | A producer and a consumer never both sleep |
| `ReadyQueue.TryDequeueLosesWakeup` | inc/toolings/msg_queue.hpp:96-104 | `try_dequeue` can leave a producer asleep that has room |
| `Handover.EachOnce` | src/raft.cpp:302-334 | Results enqueued and held are the applied indices, each once |
| `Handover.AppliesAll` | src/raft.cpp:302-309 | Everything that the handler, or the leader's thread while it held nothing, was given to apply has been applied |
| `Handover.AppliesNoMore` | src/raft.cpp:302-309 | And nothing beyond the largest commit index given |
| `Handover.OrderedExactly` | src/raft.cpp:333-334 | The queue receives indices in order if and only if no handler applied entries while the leader's thread still held some |
| `Handover.OutOfOrder` | src/raft.cpp:387-396 | A run in which index 2 is enqueued before index 1 |

## Left out

- Linearizability of lease reads (`get_lease_state`): it depends on clocks, and the read ignores the commit index it is given; only the committed-prefix property is stated.
- `propose_sync`, which waits for an index to be applied without checking whose entry it holds.
- Timers: the election timeout, the wait for a heartbeat and the majority timeout are free choices of the run, so nothing is said about what must happen; `Progress` and `ReadyQueue.CanDrain` say what always can.
- Crash recovery, log compaction and membership change: the repository has no code for them; all nodes share one fixed set of members.
- gRPC, protobuf, server set-up, thread creation, logging, tracing, the network interceptor, benchmarks and the test tools.
- Terms, log indices and node ids are 64-bit in the program and unbounded here.
- Bytes of numbers are in little-endian order, as on the machines the program targets.
- `last_term_commit_idx_` and with it the read `log_[commit_index_ - 1]` (`src/raft.cpp:319`). No step of the model reads beyond a log (`AnyRun.RequestsInBounds`, `RaftNode.Node.ApplyEntries`); that read does in the runs of `Departures.LeadsCutRun`, in which a leader's commit index is beyond its log, and `Departures.CommitsHeldExactlyWhenSteady` says which clusters have such runs.
- Out-of-order arrival of results inside the key-value model: `KvService` and `KvReplicas` take results in the order in which `last_applied_` advances; see `Handover`.
- RaftTheorems.MatchIndexSound: not stated between winning an election and resetting the indices (`src/raft.cpp:139-157`), when `matchIndex_` is still that of an earlier leadership and is not read.
- KvCodec.Serialize: requires the bytes written to lie in the buffer, because otherwise the program writes past it; `KvCodec.BufferIsEnough` says exactly when they do.
- KvService.KvServer.GiveUp: does not tell whether the waiter it removes is its own or one that has since registered at the same index; both count as dropped in `KvService.ServiceAlways`.
- KvService.KvServer.OnApply: is one step here. The program uses three critical sections (`inc/kv/kv_server.hpp:44-92`), between which a fast read can see the store one result ahead of the position counted here; it is still the store after a prefix of the committed log.
- Move operations of the queue, which nothing uses.
- `KvClient` is one thread at a time; the delay between attempts and the deadline of a call are not modelled.
