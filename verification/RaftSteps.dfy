/** The critical sections of a Raft node (src/raft.cpp) as functions on its state.

    `RaftNode` proves that the imperative node computes these functions; `Cluster`
    composes them into runs of a whole cluster. */
module RaftSteps {
  import opened RaftTypes

  /** The fields a node guards with its mutex, and `applied`: everything handed to the
      apply queue so far, in the order in which `lastApplied` advanced. */
  datatype NodeState = NodeState(
    role: Role, term: Term, votedFor: Option<NodeId>, log: Log,
    commitIndex: nat, lastApplied: nat, applied: seq<ApplyResult>,
    nextIndex: map<NodeId, nat>, matchIndex: map<NodeId, nat>)

  const INITIAL_NODE := NodeState(Follower, 0, None, [], 0, 0, [], map[], map[])

  function Majority(clusterSize: nat): nat { clusterSize / 2 + 1 }

  // ----- elections -----

  function BeginCandidacy(n: NodeState, id: NodeId): NodeState {
    n.(role := Candidate, term := n.term + 1, votedFor := Some(id))
  }

  function BuildVoteRequest(n: NodeState, id: NodeId): VoteRequest {
    VoteRequest(n.term, id, |n.log|, LastTerm(n.log))
  }

  /** The election restriction: (lastTerm, lastIndex) is at least as recent as `log`. */
  predicate UpToDate(lastTerm: Term, lastIndex: nat, log: Log) {
    lastTerm > LastTerm(log) || (lastTerm == LastTerm(log) && lastIndex >= |log|)
  }

  predicate Grants(n: NodeState, req: VoteRequest) {
    (n.votedFor.None? || n.votedFor == Some(req.candidate)) && UpToDate(req.lastTerm, req.lastIndex, n.log)
  }

  function HandleRequestVote(n: NodeState, req: VoteRequest): (NodeState, VoteReply) {
    if req.term < n.term then (n, VoteReply(n.term, false))
    else
      var m := if req.term > n.term then AdoptTerm(n, req.term) else n;
      if Grants(m, req)
      then (m.(votedFor := Some(req.candidate)), VoteReply(m.term, true))
      else (m, VoteReply(m.term, false))
  }

  /** A term seen in a message or a reply is taken over, the vote is void and the role given up. */
  function AdoptTerm(n: NodeState, term: Term): NodeState {
    n.(role := Follower, term := term, votedFor := None)
  }

  /** The final check of an election round with `votes` votes, the node's own included. */
  function ConcludeElection(n: NodeState, votes: nat, majority: nat): NodeState {
    if n.role.Candidate? then n.(role := if votes >= majority then Leader else Follower) else n
  }

  function InitLeader(n: NodeState, peers: set<NodeId>): NodeState {
    n.(nextIndex := n.nextIndex + (map p | p in peers :: |n.log| + 1),
       matchIndex := n.matchIndex + (map p | p in peers :: 0))
  }

  // ----- replication, the leader's side -----

  function NextFor(n: NodeState, peer: NodeId): nat {
    if peer in n.nextIndex then n.nextIndex[peer] else |n.log| + 1
  }

  /** The request of leader `id` that shows `log` from `next` on. */
  function RequestAt(term: Term, id: NodeId, log: Log, commit: nat, next: nat): AppendRequest {
    var prev := if next == 0 then 0 else next - 1;
    AppendRequest(term, id, prev, TermAt(log, prev), log[Min(prev, |log|)..], commit)
  }

  /** Every request carries the leader's whole log from `nextIndex` on. */
  function BuildAppend(n: NodeState, id: NodeId, peer: NodeId): AppendRequest {
    RequestAt(n.term, id, n.log, n.commitIndex, NextFor(n, peer))
  }

  function FillNextIndex(n: NodeState, peers: set<NodeId>): NodeState {
    n.(nextIndex := (map p | p in peers :: |n.log| + 1) + n.nextIndex)
  }

  datatype RpcResult = RpcResult(peer: NodeId, prevIndex: nat, sent: nat, reply: Option<AppendReply>)

  /** The leader's state while it works through the replies of a round. */
  datatype Tally = Tally(node: NodeState, confirmations: nat, deposed: bool)

  function ProcessReply(t: Tally, r: RpcResult): Tally {
    if t.deposed || r.reply.None? then t
    else
      var n, reply := t.node, r.reply.value;
      if reply.term > n.term then Tally(AdoptTerm(n, reply.term), t.confirmations, true)
      else Tally(NoteReply(n, r.peer, r.prevIndex + r.sent, reply.success),
                 t.confirmations + (if reply.term == n.term then 1 else 0), false)
  }

  function NoteReply(n: NodeState, peer: NodeId, matched: nat, success: bool): NodeState {
    if success then
      n.(matchIndex := n.matchIndex[peer := matched], nextIndex := n.nextIndex[peer := matched + 1])
    else
      var next := if peer in n.nextIndex then n.nextIndex[peer] else 0;
      n.(nextIndex := n.nextIndex[peer := if next > 1 then next - 1 else next])
  }

  function ProcessReplies(t: Tally, rs: seq<RpcResult>): Tally
    decreases |rs|
  {
    if rs == [] then t
    else ProcessReply(ProcessReplies(t, rs[..|rs| - 1]), rs[|rs| - 1])
  }

  function Matching(matchIndex: map<NodeId, nat>, idx: nat): set<NodeId> {
    set p | p in matchIndex && matchIndex[p] >= idx
  }

  /** An index the commit rule accepts: an entry of the current term, stored on a majority. */
  predicate Committable(n: NodeState, idx: nat, majority: nat) {
    1 <= idx <= |n.log| && n.log[idx - 1].term == n.term && |Matching(n.matchIndex, idx)| + 1 >= majority
  }

  /** The descending scan from `idx`. */
  function CommitScan(n: NodeState, idx: nat, majority: nat): nat
    requires idx <= |n.log|
  {
    if idx <= n.commitIndex then n.commitIndex
    else if Committable(n, idx, majority) then idx
    else CommitScan(n, idx - 1, majority)
  }

  function AdvanceCommit(n: NodeState, majority: nat): NodeState {
    n.(commitIndex := CommitScan(n, |n.log|, majority))
  }

  /** The results for the entries after `from`, up to and including `upTo`, in order. */
  function Results(log: Log, from: nat, upTo: nat): seq<ApplyResult>
    decreases upTo
  {
    if upTo <= from then [] else Results(log, from, upTo - 1) + [ApplyResult(true, CommandAt(log, upTo), upTo)]
  }

  function ApplyCommitted(n: NodeState): NodeState {
    if n.lastApplied < n.commitIndex
    then n.(lastApplied := n.commitIndex, applied := n.applied + Results(n.log, n.lastApplied, n.commitIndex))
    else n
  }

  /** Stepping down for lack of a majority. The program clears the vote (`keepVote` false)
      although the term stays; `keepVote` is the rule that a vote lasts for its term. */
  function StepDown(n: NodeState, keepVote: bool): NodeState {
    n.(role := Follower, votedFor := if keepVote then n.votedFor else None)
  }

  /** The second critical section of a heartbeat round. */
  function FinishRound(n: NodeState, rs: seq<RpcResult>, majority: nat, timedOut: bool, keepVote: bool): NodeState {
    if !n.role.Leader? then n
    else
      var t := ProcessReplies(Tally(n, 1, false), rs);
      if t.deposed then t.node
      else
        var m := ApplyCommitted(AdvanceCommit(t.node, majority));
        if t.confirmations < majority && timedOut then StepDown(m, keepVote) else m
  }

  // ----- replication, the follower's side -----

  /** The append loop: `entries` are laid over `log` after position `at`. */
  function MergeEntries(log: Log, at: nat, entries: Log): Log
    requires at <= |log|
    decreases |entries|
  {
    if entries == [] then log
    else if at < |log| && log[at].term == entries[0].term then MergeEntries(log, at + 1, entries[1..])
    else MergeEntries(log[..at] + [entries[0]], at + 1, entries[1..])
  }

  predicate PrevMatches(log: Log, req: AppendRequest) {
    req.prevIndex <= |log| && (req.prevIndex > 0 ==> log[req.prevIndex - 1].term == req.prevTerm)
  }

  function HeardLeader(n: NodeState, term: Term): NodeState
    requires n.term <= term
  {
    if term > n.term then AdoptTerm(n, term) else n.(role := Follower)
  }

  function AcceptEntries(n: NodeState, req: AppendRequest): NodeState
    requires req.prevIndex <= |n.log|
  {
    var log := MergeEntries(n.log, req.prevIndex, req.entries);
    var commit := if req.leaderCommit > n.commitIndex then Min(req.leaderCommit, |log|) else n.commitIndex;
    ApplyCommitted(n.(log := log, commitIndex := commit))
  }

  function HandleAppendEntries(n: NodeState, req: AppendRequest): (NodeState, AppendReply) {
    if req.term < n.term then (n, AppendReply(n.term, false))
    else
      var m := HeardLeader(n, req.term);
      if !PrevMatches(m.log, req) then (m, AppendReply(m.term, false))
      else (AcceptEntries(m, req), AppendReply(m.term, true))
  }

  // ----- proposals -----

  function Propose(n: NodeState, command: Bytes): NodeState {
    if n.role.Leader? then n.(log := n.log + [Entry(n.term, command)]) else n
  }
}
