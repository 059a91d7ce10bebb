/** The Raft node of src/raft.cpp: its fields and, method by method, its critical sections.
    Each method is proved to compute the step function that `Cluster` builds runs from. */
module RaftNode {
  import opened RaftTypes
  import opened RaftSteps
  import LogSafety
  import opened Outcomes

  class Node {
    const id: NodeId
    const peers: set<NodeId>

    var role: Role
    var currentTerm: Term
    var votedFor: Option<NodeId>
    var log: Log
    var commitIndex: nat
    var lastApplied: nat
    var applied: seq<ApplyResult>
    var nextIndex: map<NodeId, nat>
    var matchIndex: map<NodeId, nat>

    /** Set when a leader is heard from, and cleared when a wait for one begins. */
    var receivedHeartbeat: bool

    ghost function State(): NodeState
      reads this
    {
      NodeState(role, currentTerm, votedFor, log, commitIndex, lastApplied, applied, nextIndex, matchIndex)
    }

    /** Between critical sections everything committed has been handed on. */
    ghost predicate Valid()
      reads this
    {
      commitIndex <= lastApplied
    }

    constructor (id: NodeId, peers: set<NodeId>)
      ensures State() == INITIAL_NODE && Valid() && this.id == id && this.peers == peers && !receivedHeartbeat
    {
      this.id, this.peers := id, peers;
      role, currentTerm, votedFor := Follower, 0, None;
      log, commitIndex, lastApplied, applied := [], 0, 0, [];
      nextIndex, matchIndex := map[], map[];
      receivedHeartbeat := false;
    }

    // ----- elections -----

    /** The top of the node's own loop: a leader goes on leading, others wait for a leader. */
    method BeginWait() returns (amLeader: bool)
      modifies this`receivedHeartbeat
      ensures amLeader == role.Leader? && receivedHeartbeat == (amLeader && old(receivedHeartbeat))
    {
      amLeader := role == Leader;
      if !amLeader {
        receivedHeartbeat := false;
      }
    }

    /** The end of the wait: without a sign of a leader, the node stands. */
    method StartElection() returns (started: bool)
      modifies this`role, this`currentTerm, this`votedFor
      ensures started == (!receivedHeartbeat && !old(role).Leader?)
      ensures State() == if started then BeginCandidacy(old(State()), id) else old(State())
      ensures started ==> role == Candidate && currentTerm == old(currentTerm) + 1 && votedFor == Some(id)
    {
      started := !receivedHeartbeat && role != Leader;
      if started {
        role := Candidate;
        currentTerm := currentTerm + 1;
        votedFor := Some(id);
      }
    }

    method MakeVoteRequest() returns (req: VoteRequest)
      ensures req == BuildVoteRequest(State(), id)
      ensures req == VoteRequest(currentTerm, id, |log|, LastTerm(log))
    {
      req := VoteRequest(currentTerm, id, |log|, if log == [] then 0 else log[|log| - 1].term);
    }

    method HandleVoteRequest(req: VoteRequest) returns (reply: VoteReply)
      modifies this`role, this`currentTerm, this`votedFor
      ensures (State(), reply) == HandleRequestVote(old(State()), req)
      ensures reply.term == currentTerm == Max(old(currentTerm), req.term)
      ensures reply.granted <==>
        && old(currentTerm) <= req.term
        && (old(currentTerm) == req.term ==> old(votedFor) == None || old(votedFor) == Some(req.candidate))
        && LastTerm(log) <= req.lastTerm && (LastTerm(log) == req.lastTerm ==> |log| <= req.lastIndex)
    {
      if req.term < currentTerm {
        return VoteReply(currentTerm, false);
      }
      if req.term > currentTerm {
        currentTerm := req.term;
        votedFor := None;
        role := Follower;
      }
      var myLastIndex := |log|;
      var myLastTerm := if myLastIndex == 0 then 0 else log[myLastIndex - 1].term;
      var upToDate := false;
      if req.lastTerm > myLastTerm {
        upToDate := true;
      } else if req.lastTerm == myLastTerm && req.lastIndex >= myLastIndex {
        upToDate := true;
      }
      if (votedFor == None || votedFor == Some(req.candidate)) && upToDate {
        votedFor := Some(req.candidate);
        reply := VoteReply(currentTerm, true);
      } else {
        reply := VoteReply(currentTerm, false);
      }
    }

    /** One reply to a vote request is compared under the lock, and counted. */
    method TakeVoteReply(reply: VoteReply, votes: nat) returns (counted: nat, newer: Option<Term>, finished: bool)
      ensures newer == if reply.term > currentTerm then Some(reply.term) else None
      ensures counted == votes + if newer.None? && reply.granted then 1 else 0
      ensures finished <==> newer.Some? || (counted > votes && counted >= Majority(|peers| + 1))
    {
      counted, newer, finished := votes, None, false;
      if reply.term > currentTerm {
        newer, finished := Some(reply.term), true;
      } else if reply.granted {
        counted := votes + 1;
        finished := counted >= (|peers| + 1) / 2 + 1;
      }
    }

    /** The newer term is adopted under the lock again, whatever has happened in between. */
    method AdoptNewer(term: Term)
      modifies this`role, this`currentTerm, this`votedFor
      ensures State() == AdoptTerm(old(State()), term)
      ensures role == Follower && currentTerm == term && votedFor == None
    {
      currentTerm := term;
      role := Follower;
      votedFor := None;
    }

    method EndElection(votes: nat) returns (won: bool)
      modifies this`role
      ensures State() == ConcludeElection(old(State()), votes, Majority(|peers| + 1))
      ensures won == (old(role).Candidate? && 2 * votes > |peers| + 1)
      ensures role == if won then Leader else if old(role).Candidate? then Follower else old(role)
    {
      var majority := (|peers| + 1) / 2 + 1;
      won := false;
      if role == Candidate && votes >= majority {
        role := Leader;
        won := true;
      } else if role == Candidate {
        role := Follower;
      }
    }

    /** After a won election: everything is to be sent to every peer. */
    method SetUpLeader()
      modifies this`nextIndex, this`matchIndex
      ensures State() == InitLeader(old(State()), peers)
    {
      SetIndices();
      OverlaysIsUnion(nextIndex, old(nextIndex), peers, |log| + 1);
      OverlaysIsUnion(matchIndex, old(matchIndex), peers, 0);
    }

    method SetIndices()
      modifies this`nextIndex, this`matchIndex
      ensures Overlays(nextIndex, old(nextIndex), peers, |log| + 1)
      ensures Overlays(matchIndex, old(matchIndex), peers, 0)
    {
      var todo := peers;
      while todo != {}
        invariant todo <= peers
        invariant Overlays(nextIndex, old(nextIndex), peers - todo, |log| + 1)
        invariant Overlays(matchIndex, old(matchIndex), peers - todo, 0)
        decreases todo
      {
        var p :| p in todo;
        nextIndex := nextIndex[p := |log| + 1];
        matchIndex := matchIndex[p := 0];
        todo := todo - {p};
      }
      assert peers - todo == peers;
    }

    // ----- the leader's round -----

    /** The first critical section: one request per peer, each with the log from `nextIndex` on. */
    method MakeRequests() returns (reqs: map<NodeId, AppendRequest>)
      requires role.Leader? ==> LogSafety.IndicesOk(State())
      modifies this`nextIndex
      ensures State() == if role.Leader? then FillNextIndex(old(State()), peers) else old(State())
      ensures reqs.Keys == if role.Leader? then peers else {}
      ensures forall p :: p in reqs ==> reqs[p] == BuildAppend(State(), id, p)
    {
      if role != Leader {
        return map[];
      }
      ghost var n := State();
      reqs := RequestEach();
      RoundIsBuilt(n, State(), id, peers, reqs);
    }

    method RequestEach() returns (reqs: map<NodeId, AppendRequest>)
      requires InRange(nextIndex, |log| + 1)
      modifies this`nextIndex
      ensures Underlays(nextIndex, old(nextIndex), peers, |log| + 1) && reqs.Keys == peers
      ensures forall p :: p in peers ==> reqs[p] == RequestAt(currentTerm, id, log, commitIndex, nextIndex[p])
    {
      reqs := map[];
      var todo := peers;
      while todo != {}
        invariant todo <= peers && reqs.Keys == peers - todo
        invariant Underlays(nextIndex, old(nextIndex), peers - todo, |log| + 1)
        invariant InRange(nextIndex, |log| + 1)
        invariant forall p :: p in reqs ==> reqs[p] == RequestAt(currentTerm, id, log, commitIndex, nextIndex[p])
        decreases todo
      {
        var p :| p in todo;
        if p !in nextIndex {
          nextIndex := nextIndex[p := |log| + 1];
        }
        var req := MakeRequest(p);
        reqs := reqs[p := req];
        todo := todo - {p};
      }
      assert peers - todo == peers;
    }

    method MakeRequest(peer: NodeId) returns (req: AppendRequest)
      requires peer in nextIndex && 1 <= nextIndex[peer] <= |log| + 1
      ensures req == RequestAt(currentTerm, id, log, commitIndex, nextIndex[peer])
    {
      var next := nextIndex[peer];
      var prev := next - 1;
      var entries: Log := [];
      var i := next - 1;
      while i < |log|
        invariant prev <= i <= |log| && entries == log[prev..i]
      {
        entries := entries + [log[i]];
        i := i + 1;
      }
      assert entries == log[prev..];
      req := AppendRequest(currentTerm, id, prev, if prev == 0 then 0 else log[prev - 1].term, entries, commitIndex);
    }

    /** The second critical section: replies, commit, apply, and possibly stepping down. */
    method EndRound(results: seq<RpcResult>, timedOut: bool)
      requires Valid()
      modifies this
      ensures State() == FinishRound(old(State()), results, Majority(|peers| + 1), timedOut, false)
      ensures Valid() && receivedHeartbeat == old(receivedHeartbeat)
      ensures role.Leader? <==>
        && old(role).Leader? && NoneNewer(results, old(currentTerm))
        && (2 * (1 + |Confirming(results, old(currentTerm))|) > |peers| + 1 || !timedOut)
    {
      ghost var n := State();
      if role == Leader {
        StaysLeaderExactly(n, results, Majority(|peers| + 1), timedOut, false);
      }
      if role != Leader {
        return;
      }
      var deposed, confirmations := ReadReplies(results);
      if deposed {
        return;
      }
      ScanForCommit();
      ApplyEntries();
      if confirmations < (|peers| + 1) / 2 + 1 && timedOut {
        role := Follower;
        votedFor := None;
      }
    }

    method ReadReplies(results: seq<RpcResult>) returns (deposed: bool, confirmations: nat)
      modifies this`role, this`currentTerm, this`votedFor, this`nextIndex, this`matchIndex
      ensures Tally(State(), confirmations, deposed) == ProcessReplies(Tally(old(State()), 1, false), results)
    {
      deposed, confirmations := false, 1;
      ghost var start := Tally(State(), 1, false);
      for k := 0 to |results|
        invariant Tally(State(), confirmations, false) == ProcessReplies(start, results[..k]) && !deposed
        invariant commitIndex == old(commitIndex) && lastApplied == old(lastApplied)
      {
        assert results[..k + 1][..k] == results[..k];
        var r := results[k];
        if r.reply.Some? {
          var reply := r.reply.value;
          if reply.term > currentTerm {
            currentTerm := reply.term;
            role := Follower;
            votedFor := None;
            deposed := true;
            DeposedIgnoresRest(start, results, k + 1);
            return;
          }
          if reply.term == currentTerm {
            confirmations := confirmations + 1;
          }
          if reply.success {
            matchIndex := matchIndex[r.peer := r.prevIndex + r.sent];
            nextIndex := nextIndex[r.peer := matchIndex[r.peer] + 1];
          } else {
            if r.peer !in nextIndex {
              nextIndex := nextIndex[r.peer := 0];
            }
            if nextIndex[r.peer] > 1 {
              nextIndex := nextIndex[r.peer := nextIndex[r.peer] - 1];
            }
          }
        }
      }
      assert results[..|results|] == results;
    }

    method CountMatching(idx: nat) returns (count: nat)
      ensures count == 1 + |Matching(matchIndex, idx)|
    {
      count := 1;
      var todo := matchIndex.Keys;
      ghost var counted: set<NodeId> := {};
      while todo != {}
        invariant todo <= matchIndex.Keys && counted !! todo
        invariant forall p :: p in matchIndex && p !in todo ==> (p in counted <==> matchIndex[p] >= idx)
        invariant counted <= matchIndex.Keys && count == 1 + |counted|
        decreases todo
      {
        var p :| p in todo;
        if matchIndex[p] >= idx {
          count := count + 1;
          counted := counted + {p};
        }
        todo := todo - {p};
      }
      assert counted == Matching(matchIndex, idx);
    }

    method ScanForCommit()
      requires Valid()
      modifies this`commitIndex
      ensures State() == AdvanceCommit(old(State()), Majority(|peers| + 1))
      ensures commitIndex == old(commitIndex) || commitIndex <= |log|
    {
      ghost var n := State();
      var idx := |log|;
      while idx > commitIndex
        invariant 0 <= idx <= |log| && State() == n
        invariant CommitScan(n, idx, Majority(|peers| + 1)) == CommitScan(n, |log|, Majority(|peers| + 1))
      {
        if log[idx - 1].term == currentTerm {
          var count := CountMatching(idx);
          if count >= (|peers| + 1) / 2 + 1 {
            assert Committable(n, idx, Majority(|peers| + 1));
            commitIndex := idx;
            return;
          }
        }
        idx := idx - 1;
      }
    }

    method ApplyEntries()
      requires commitIndex <= |log| || commitIndex <= lastApplied
      modifies this`lastApplied, this`applied
      ensures State() == ApplyCommitted(old(State()))
      ensures Valid()
    {
      while lastApplied < commitIndex
        invariant old(lastApplied) <= lastApplied <= commitIndex || lastApplied == old(lastApplied)
        invariant applied == old(applied) + Results(log, old(lastApplied), lastApplied)
      {
        lastApplied := lastApplied + 1;
        applied := applied + [ApplyResult(true, log[lastApplied - 1].command, lastApplied)];
      }
    }

    // ----- the follower's side -----

    method HandleAppend(req: AppendRequest) returns (reply: AppendReply)
      requires Valid()
      modifies this
      ensures (State(), reply) == HandleAppendEntries(old(State()), req)
      ensures reply.term == currentTerm == Max(old(currentTerm), req.term)
      ensures reply.success <==>
        && old(currentTerm) <= req.term && req.prevIndex <= |old(log)|
        && (req.prevIndex > 0 ==> old(log)[req.prevIndex - 1].term == req.prevTerm)
      ensures reply.success && req.leaderCommit > old(commitIndex) ==> commitIndex == Min(req.leaderCommit, |log|)
      ensures Valid() && receivedHeartbeat == (old(receivedHeartbeat) || req.term >= old(currentTerm))
    {
      if req.term < currentTerm {
        return AppendReply(currentTerm, false);
      }
      if req.term > currentTerm {
        currentTerm := req.term;
        votedFor := None;
      }
      role := Follower;
      receivedHeartbeat := true;
      var prev := req.prevIndex;
      if prev > |log| {
        return AppendReply(currentTerm, false);
      }
      if prev > 0 && log[prev - 1].term != req.prevTerm {
        return AppendReply(currentTerm, false);
      }
      StoreEntries(prev, req.entries);
      if req.leaderCommit > commitIndex {
        commitIndex := Min(req.leaderCommit, |log|);
      }
      ApplyEntries();
      reply := AppendReply(currentTerm, true);
    }

    method StoreEntries(prev: nat, entries: Log)
      requires prev <= |log|
      modifies this`log
      ensures log == MergeEntries(old(log), prev, entries)
    {
      var idx := prev;
      for k := 0 to |entries|
        invariant idx == prev + k <= |log|
        invariant MergeEntries(log, idx, entries[k..]) == MergeEntries(old(log), prev, entries)
      {
        var entry := entries[k];
        assert entries[k..][0] == entry && entries[k..][1..] == entries[k + 1..];
        idx := idx + 1;
        if |log| >= idx {
          if log[idx - 1].term != entry.term {
            log := log[..idx - 1];
            log := log + [entry];
          }
        } else {
          assert log == log[..idx - 1];
          log := log + [entry];
        }
      }
    }

    // ----- proposals -----

    /** The index and term under which a command was appended; index 0 if this node does not lead. */
    method ProposeCommand(command: Bytes) returns (index: nat, term: Term, isLeader: bool)
      modifies this`log
      ensures State() == Propose(old(State()), command)
      ensures isLeader == role.Leader? && term == currentTerm
      ensures if isLeader then index == |log| && log[index - 1] == Entry(term, command) else index == 0
    {
      term, isLeader := currentTerm, role == Leader;
      if !isLeader {
        return 0, term, isLeader;
      }
      log := log + [Entry(currentTerm, command)];
      index := |log|;
    }
  }

  ghost predicate InRange(m: map<NodeId, nat>, max: nat) {
    forall p :: p in m ==> 1 <= m[p] <= max
  }

  /** `m` is `m0` with value `x` set for all of `keys`. */
  ghost predicate Overlays(m: map<NodeId, nat>, m0: map<NodeId, nat>, keys: set<NodeId>, x: nat) {
    m.Keys == m0.Keys + keys && forall p :: p in m ==> m[p] == if p in keys then x else m0[p]
  }

  lemma OverlaysIsUnion(m: map<NodeId, nat>, m0: map<NodeId, nat>, keys: set<NodeId>, x: nat)
    requires Overlays(m, m0, keys, x)
    ensures m == m0 + (map p | p in keys :: x)
  {
  }

  /** `m` is `m0` with value `x` set for those of `keys` that it lacks. */
  ghost predicate Underlays(m: map<NodeId, nat>, m0: map<NodeId, nat>, keys: set<NodeId>, x: nat) {
    m.Keys == m0.Keys + keys && forall p :: p in m ==> m[p] == if p in m0 then m0[p] else x
  }

  lemma RoundIsBuilt(n: NodeState, n': NodeState, id: NodeId, peers: set<NodeId>, reqs: map<NodeId, AppendRequest>)
    requires n' == n.(nextIndex := n'.nextIndex) && Underlays(n'.nextIndex, n.nextIndex, peers, |n.log| + 1)
    requires reqs.Keys == peers
    requires forall p :: p in peers ==> reqs[p] == RequestAt(n.term, id, n.log, n.commitIndex, n'.nextIndex[p])
    ensures n' == FillNextIndex(n, peers) && forall p :: p in reqs ==> reqs[p] == BuildAppend(n', id, p)
  {
    FillIsUnderlay(n, n', peers);
    RequestsAreBuilt(n', id, peers, reqs);
  }

  lemma FillIsUnderlay(n: NodeState, n': NodeState, peers: set<NodeId>)
    requires n' == n.(nextIndex := n'.nextIndex) && Underlays(n'.nextIndex, n.nextIndex, peers, |n.log| + 1)
    ensures n' == FillNextIndex(n, peers)
  {
    UnderlaysIsUnion(n'.nextIndex, n.nextIndex, peers, |n.log| + 1);
  }

  lemma RequestsAreBuilt(n: NodeState, id: NodeId, peers: set<NodeId>, reqs: map<NodeId, AppendRequest>)
    requires reqs.Keys == peers <= n.nextIndex.Keys
    requires forall p :: p in peers ==> reqs[p] == RequestAt(n.term, id, n.log, n.commitIndex, n.nextIndex[p])
    ensures forall p :: p in reqs ==> reqs[p] == BuildAppend(n, id, p)
  {
    forall p | p in reqs ensures reqs[p] == BuildAppend(n, id, p) {
      assert p in peers;
    }
  }

  lemma UnderlaysIsUnion(m': map<NodeId, nat>, m: map<NodeId, nat>, peers: set<NodeId>, value: nat)
    requires Underlays(m', m, peers, value)
    ensures m' == (map p | p in peers :: value) + m
  {
  }

  /** Once deposed, a leader reads no further replies. */
  lemma {:induction false} DeposedIgnoresRest(t: Tally, rs: seq<RpcResult>, k: nat)
    requires k <= |rs| && ProcessReplies(t, rs[..k]).deposed
    ensures ProcessReplies(t, rs) == ProcessReplies(t, rs[..k])
    decreases |rs| - k
  {
    if k == |rs| {
      assert rs[..k] == rs;
    } else {
      assert rs[..k + 1][..k] == rs[..k];
      DeposedIgnoresRest(t, rs, k + 1);
    }
  }
}
