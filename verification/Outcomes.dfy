/** What the handlers and the end of a round come to, in terms of the fields alone: exactly when a
    vote is granted, a request accepted, a leader confirmed or deposed, and what every field is
    afterwards. */
module Outcomes {
  import opened RaftTypes
  import opened RaftSteps
  import opened Cluster
  import opened ElectionSafety
  import opened LogMerge
  import opened LogSafety
  import opened CommitSafety
  import opened AnyRun

  function Max(a: nat, b: nat): nat { if a <= b then b else a }

  // ----- majorities -----

  /** Any two sets of at least `k` members share one. */
  ghost predicate AlwaysMeet(members: set<NodeId>, k: nat) {
    forall a, b :: a <= members && b <= members && |a| >= k && |b| >= k ==> a * b != {}
  }

  /** A majority is the smallest number of votes of which two always share a voter. */
  lemma MajorityIsLeast(cfg: Config, k: nat)
    ensures AlwaysMeet(cfg.members, k) <==> k >= Quorum(cfg)
  {
    if k >= Quorum(cfg) {
      forall a, b | a <= cfg.members && b <= cfg.members && |a| >= k && |b| >= k ensures a * b != {} {
        var v := QuorumsMeet(cfg, a, b);
        assert v in a * b;
      }
    } else {
      var a := PartOf(cfg.members, k);
      assert |cfg.members - a| == |cfg.members| - k;
      var b := PartOf(cfg.members - a, k);
      assert a * b == {};
    }
  }

  // ----- votes -----

  /** Of any two logs, one is up to date for the other. */
  lemma UpToDateTotal(a: Log, b: Log)
    ensures UpToDate(LastTerm(a), |a|, b) || UpToDate(LastTerm(b), |b|, a)
  {
  }

  /** And both are exactly when they end in the same term and place. */
  lemma UpToDateBothWays(a: Log, b: Log)
    ensures UpToDate(LastTerm(a), |a|, b) && UpToDate(LastTerm(b), |b|, a) <==>
            LastTerm(a) == LastTerm(b) && |a| == |b|
  {
  }

  /** Every group of nodes has one whose log is up to date for all the others. */
  lemma {:induction false} BestCandidate(nodes: set<NodeId>, logs: map<NodeId, Log>) returns (best: NodeId)
    requires nodes != {} && nodes <= logs.Keys
    ensures best in nodes && forall v :: v in nodes ==> UpToDate(LastTerm(logs[best]), |logs[best]|, logs[v])
    decreases nodes
  {
    var x :| x in nodes;
    best := x;
    if nodes != {x} {
      assert nodes - {x} != {} by {
        assert nodes == (nodes - {x}) + {x};
      }
      var other := BestCandidate(nodes - {x}, logs);
      UpToDateTotal(logs[x], logs[other]);
      if !UpToDate(LastTerm(logs[x]), |logs[x]|, logs[other]) {
        best := other;
      }
    }
  }

  /** Exactly when a vote is granted, and what it leaves behind. A candidate that asks again in a
      term in which it has the vote is granted it again. */
  lemma VoteOutcome(n: NodeState, req: VoteRequest)
    ensures var (n', reply) := HandleRequestVote(n, req);
      && (reply.granted <==>
            && n.term <= req.term
            && (n.term == req.term ==> n.votedFor == None || n.votedFor == Some(req.candidate))
            && LastTerm(n.log) <= req.lastTerm && (LastTerm(n.log) == req.lastTerm ==> |n.log| <= req.lastIndex))
      && reply.term == n'.term == Max(n.term, req.term)
      && (n'.role == if n.term < req.term then Follower else n.role)
      && (n'.votedFor == if reply.granted then Some(req.candidate) else if n.term < req.term then None else n.votedFor)
      && n'.(role := n.role, term := n.term, votedFor := n.votedFor) == n
  {
  }

  /** So in every group the node with the best log, standing in a term that is new to the others,
      gets all their votes. */
  lemma BestGetsAll(nodes: map<NodeId, NodeState>, term: Term) returns (best: NodeId)
    requires nodes != map[] && forall v :: v in nodes ==> nodes[v].term < term
    ensures best in nodes && forall v :: v in nodes && v != best ==>
      HandleRequestVote(nodes[v], BuildVoteRequest(nodes[best].(term := term), best)).1 == VoteReply(term, true)
  {
    var v0 :| v0 in nodes;
    best := BestCandidate(nodes.Keys, map v | v in nodes :: nodes[v].log);
    forall v | v in nodes && v != best
      ensures HandleRequestVote(nodes[v], BuildVoteRequest(nodes[best].(term := term), best)).1 == VoteReply(term, true)
    {
      VoteOutcome(nodes[v], BuildVoteRequest(nodes[best].(term := term), best));
    }
  }

  // ----- entries -----

  /** Exactly when a request is accepted, and what it leaves behind. What becomes of the log is
      `MergeExact`: it agrees with the entries up to `c`, and goes on with them from there. */
  lemma AppendOutcome(n: NodeState, req: AppendRequest) returns (c: nat)
    ensures var (n', reply) := HandleAppendEntries(n, req);
      && (reply.success <==>
            && n.term <= req.term && req.prevIndex <= |n.log|
            && (req.prevIndex > 0 ==> n.log[req.prevIndex - 1].term == req.prevTerm))
      && reply.term == n'.term == Max(n.term, req.term)
      && (n'.role == if n.term <= req.term then Follower else n.role)
      && (n'.votedFor == if n.term < req.term then None else n.votedFor)
      && n'.nextIndex == n.nextIndex && n'.matchIndex == n.matchIndex
    ensures var (n', reply) := HandleAppendEntries(n, req);
      !reply.success ==> n' == n.(role := n'.role, term := n'.term, votedFor := n'.votedFor)
    ensures var (n', reply) := HandleAppendEntries(n, req);
      reply.success ==>
        && (n'.commitIndex == if req.leaderCommit <= n.commitIndex then n.commitIndex
                              else Min(req.leaderCommit, |n'.log|))
        && n'.lastApplied == Max(n.lastApplied, n'.commitIndex)
        && n'.applied == n.applied + Results(n'.log, n.lastApplied, n'.commitIndex)
    ensures var (n', reply) := HandleAppendEntries(n, req);
      reply.success ==>
        && req.prevIndex <= c <= |n.log| && c <= req.prevIndex + |req.entries|
        && (forall k :: req.prevIndex <= k < c ==> n.log[k].term == req.entries[k - req.prevIndex].term)
        && (n'.log == if c == req.prevIndex + |req.entries| then n.log
                      else n.log[..c] + req.entries[c - req.prevIndex..])
  {
    c := 0;
    AnswerOutcome(n, req);
    if HandleAppendEntries(n, req).1.success {
      c := MergeExact(n.log, req.prevIndex, req.entries);
      AcceptOutcome(HeardLeader(n, req.term), req);
    }
  }

  lemma AnswerOutcome(n: NodeState, req: AppendRequest)
    ensures var (n', reply) := HandleAppendEntries(n, req);
      && (reply.success <==>
            && n.term <= req.term && req.prevIndex <= |n.log|
            && (req.prevIndex > 0 ==> n.log[req.prevIndex - 1].term == req.prevTerm))
      && reply.term == n'.term == Max(n.term, req.term)
      && (n'.role == if n.term <= req.term then Follower else n.role)
      && (n'.votedFor == if n.term < req.term then None else n.votedFor)
      && n'.nextIndex == n.nextIndex && n'.matchIndex == n.matchIndex
  {
  }

  lemma AcceptOutcome(n: NodeState, req: AppendRequest)
    requires req.prevIndex <= |n.log|
    ensures var n' := AcceptEntries(n, req);
      && n'.log == MergeEntries(n.log, req.prevIndex, req.entries)
      && (n'.commitIndex == if req.leaderCommit <= n.commitIndex then n.commitIndex
                            else Min(req.leaderCommit, |n'.log|))
      && n'.lastApplied == Max(n.lastApplied, n'.commitIndex)
      && n'.applied == n.applied + Results(n'.log, n.lastApplied, n'.commitIndex)
  {
    assert n.applied + [] == n.applied;
  }

  // ----- the end of a round -----

  predicate Heard(rs: seq<RpcResult>, k: int) {
    0 <= k < |rs| && rs[k].reply.Some?
  }

  /** The answers that show term `t`. */
  function Confirming(rs: seq<RpcResult>, t: Term): set<int> {
    set k | 0 <= k < |rs| && rs[k].reply.Some? && rs[k].reply.value.term == t
  }

  ghost predicate NoneNewer(rs: seq<RpcResult>, t: Term) {
    forall k :: Heard(rs, k) ==> rs[k].reply.value.term <= t
  }

  /** Reply k is the first to show a newer term. */
  ghost predicate FirstNewer(rs: seq<RpcResult>, t: Term, k: int) {
    Heard(rs, k) && rs[k].reply.value.term > t && NoneNewer(rs[..k], t)
  }

  lemma {:induction false} TallyCounts(n: NodeState, rs: seq<RpcResult>)
    requires NoneNewer(rs, n.term)
    ensures var t := ProcessReplies(Tally(n, 1, false), rs);
      && !t.deposed && t.confirmations == 1 + |Confirming(rs, n.term)|
      && t.node == n.(nextIndex := t.node.nextIndex, matchIndex := t.node.matchIndex)
    decreases |rs|
  {
    if rs == [] {
      assert Confirming(rs, n.term) == {};
    } else {
      var last := |rs| - 1;
      var fewer := rs[..last];
      forall k | Heard(fewer, k) ensures fewer[k].reply.value.term <= n.term {
        assert Heard(rs, k);
      }
      TallyCounts(n, fewer);
      assert Heard(rs, last) ==> rs[last].reply.value.term <= n.term;
      OneMoreConfirming(rs, n.term);
    }
  }

  lemma OneMoreConfirming(rs: seq<RpcResult>, t: Term)
    requires rs != []
    ensures var last := rs[|rs| - 1].reply;
      |Confirming(rs, t)| == |Confirming(rs[..|rs| - 1], t)| + if last.Some? && last.value.term == t then 1 else 0
  {
    var last := |rs| - 1;
    var fewer := rs[..last];
    assert Confirming(rs, t) ==
      Confirming(fewer, t) + if rs[last].reply.Some? && rs[last].reply.value.term == t then {last} else {};
  }

  lemma {:induction false} TallyDeposed(n: NodeState, rs: seq<RpcResult>, k: int)
    requires FirstNewer(rs, n.term, k)
    ensures var t := ProcessReplies(Tally(n, 1, false), rs);
      && t.deposed
      && t.node == n.(role := Follower, term := rs[k].reply.value.term, votedFor := None,
                      nextIndex := t.node.nextIndex, matchIndex := t.node.matchIndex)
    decreases |rs|
  {
    var fewer := rs[..|rs| - 1];
    if k == |rs| - 1 {
      TallyCounts(n, fewer);
    } else {
      assert fewer[..k] == rs[..k] && Heard(fewer, k);
      TallyDeposed(n, fewer, k);
    }
  }

  lemma {:induction false} SomeFirstNewer(rs: seq<RpcResult>, t: Term) returns (k: int)
    requires !NoneNewer(rs, t)
    ensures FirstNewer(rs, t, k)
    decreases |rs|
  {
    var fewer := rs[..|rs| - 1];
    if NoneNewer(fewer, t) {
      k :| Heard(rs, k) && rs[k].reply.value.term > t;
      assert k < |rs| - 1 ==> Heard(fewer, k);
    } else {
      k := SomeFirstNewer(fewer, t);
      assert fewer[..k] == rs[..k];
    }
  }

  /** A leader is still leader after its round exactly when no answer shows a newer term, and a
      majority has answered in its term or its time is not up. */
  lemma StaysLeaderExactly(n: NodeState, rs: seq<RpcResult>, majority: nat, timedOut: bool, keepVote: bool)
    requires n.role.Leader?
    ensures FinishRound(n, rs, majority, timedOut, keepVote).role.Leader? <==>
            NoneNewer(rs, n.term) && (1 + |Confirming(rs, n.term)| >= majority || !timedOut)
  {
    if NoneNewer(rs, n.term) {
      TallyCounts(n, rs);
    } else {
      var k := SomeFirstNewer(rs, n.term);
      TallyDeposed(n, rs, k);
    }
  }

  /** The first answer of a newer term makes the leader a follower of that term, without a vote;
      what it has stored, committed and applied stays as it is. */
  lemma DeposedOutcome(n: NodeState, rs: seq<RpcResult>, k: int, majority: nat, timedOut: bool, keepVote: bool)
    requires n.role.Leader? && FirstNewer(rs, n.term, k)
    ensures var n' := FinishRound(n, rs, majority, timedOut, keepVote);
      && n'.role == Follower && n'.term == rs[k].reply.value.term && n'.votedFor == None
      && n'.log == n.log && n'.commitIndex == n.commitIndex
      && n'.lastApplied == n.lastApplied && n'.applied == n.applied
  {
    TallyDeposed(n, rs, k);
  }

  // ----- the indices after a round -----

  predicate Distinct(rs: seq<RpcResult>) {
    forall j, k :: 0 <= j < k < |rs| ==> rs[j].peer != rs[k].peer
  }

  /** What reply k makes of the indices of its peer. */
  ghost predicate NotedAt(n: NodeState, n': NodeState, r: RpcResult) {
    match r.reply
    case None => IndicesKept(n, n', r.peer)
    case Some(reply) =>
      if reply.success then
        && r.peer in n'.matchIndex && n'.matchIndex[r.peer] == r.prevIndex + r.sent
        && r.peer in n'.nextIndex && n'.nextIndex[r.peer] == r.prevIndex + r.sent + 1
      else
        && MatchKept(n, n', r.peer) && r.peer in n'.nextIndex
        && var next := if r.peer in n.nextIndex then n.nextIndex[r.peer] else 0;
           n'.nextIndex[r.peer] == if next > 1 then next - 1 else next
  }

  ghost predicate MatchKept(n: NodeState, n': NodeState, p: NodeId) {
    (p in n'.matchIndex <==> p in n.matchIndex) && (p in n.matchIndex ==> n'.matchIndex[p] == n.matchIndex[p])
  }

  ghost predicate IndicesKept(n: NodeState, n': NodeState, p: NodeId) {
    && MatchKept(n, n', p) && (p in n'.nextIndex <==> p in n.nextIndex)
    && (p in n.nextIndex ==> n'.nextIndex[p] == n.nextIndex[p])
  }

  ghost predicate Silent(rs: seq<RpcResult>, p: NodeId) {
    forall k :: 0 <= k < |rs| ==> rs[k].peer != p
  }

  /** Each answer counts for its own peer. */
  ghost predicate Noted(n: NodeState, n': NodeState, rs: seq<RpcResult>) {
    && (forall k :: 0 <= k < |rs| ==> NotedAt(n, n', rs[k]))
    && (forall p :: Silent(rs, p) ==> IndicesKept(n, n', p))
  }

  lemma {:induction false} TallyNotes(n: NodeState, rs: seq<RpcResult>)
    requires NoneNewer(rs, n.term) && Distinct(rs)
    ensures Noted(n, ProcessReplies(Tally(n, 1, false), rs).node, rs)
    decreases |rs|
  {
    if rs != [] {
      var last := |rs| - 1;
      var fewer := rs[..last];
      forall k | Heard(fewer, k) ensures fewer[k].reply.value.term <= n.term {
        assert Heard(rs, k);
      }
      TallyNotes(n, fewer);
      TallyCounts(n, fewer);
      assert Silent(fewer, rs[last].peer);
      assert Heard(rs, last) ==> rs[last].reply.value.term <= n.term;
      NotedMore(n, ProcessReplies(Tally(n, 1, false), fewer), rs);
    }
  }

  lemma NotedMore(n: NodeState, t: Tally, rs: seq<RpcResult>)
    requires rs != [] && Distinct(rs) && !t.deposed && t.node.term == n.term
    requires Noted(n, t.node, rs[..|rs| - 1]) && Silent(rs[..|rs| - 1], rs[|rs| - 1].peer)
    requires rs[|rs| - 1].reply.Some? ==> rs[|rs| - 1].reply.value.term <= n.term
    ensures Noted(n, ProcessReply(t, rs[|rs| - 1]).node, rs)
  {
    var last := |rs| - 1;
    var fewer, r, n' := rs[..last], rs[last], ProcessReply(t, rs[last]).node;
    assert IndicesKept(n, t.node, r.peer);
    forall k | 0 <= k < |rs| ensures NotedAt(n, n', rs[k]) {
      if k < last {
        assert fewer[k] == rs[k] && NotedAt(n, t.node, fewer[k]);
        assert rs[k].peer != r.peer;
      }
    }
    forall p | Silent(rs, p) ensures IndicesKept(n, n', p) {
      assert rs[last].peer != p;
      assert Silent(fewer, p);
    }
  }

  /** The peers that are known to store the log up to index `idx`. */
  function Storing(n: NodeState, idx: nat): set<NodeId> {
    set p | p in n.matchIndex && n.matchIndex[p] >= idx
  }

  /** Index `idx` holds an entry of the leader's term that a majority, itself included, stores. */
  ghost predicate OnMajority(n: NodeState, idx: nat, majority: nat) {
    && 1 <= idx <= |n.log| && n.log[idx - 1].term == n.term
    && 1 + |Storing(n, idx)| >= majority
  }

  /** All that a round does at a leader whom no answer shows a newer term, whether or not it steps
      down in the end. */
  lemma RoundOutcome(n: NodeState, rs: seq<RpcResult>, majority: nat, timedOut: bool, keepVote: bool)
    requires n.role.Leader? && NoneNewer(rs, n.term) && Distinct(rs)
    ensures var n' := FinishRound(n, rs, majority, timedOut, keepVote);
      && n'.term == n.term && n'.log == n.log && Noted(n, n', rs)
      && (n'.commitIndex == n.commitIndex ||
          (n.commitIndex < n'.commitIndex && OnMajority(n', n'.commitIndex, majority)))
      && (forall j: nat :: n'.commitIndex < j ==> !OnMajority(n', j, majority))
      && n'.lastApplied == Max(n.lastApplied, n'.commitIndex)
      && n'.applied == n.applied + Results(n.log, n.lastApplied, n'.commitIndex)
    ensures var n' := FinishRound(n, rs, majority, timedOut, keepVote);
      && (n'.role == if timedOut && 1 + |Confirming(rs, n.term)| < majority then Follower else Leader)
      && (n'.votedFor == if n'.role.Leader? || keepVote then n.votedFor else None)
  {
    TallyCounts(n, rs);
    TallyNotes(n, rs);
    var m := ProcessReplies(Tally(n, 1, false), rs).node;
    ScanFinds(m, |m.log|, majority);
    var n' := FinishRound(n, rs, majority, timedOut, keepVote);
    assert n'.matchIndex == m.matchIndex && n'.nextIndex == m.nextIndex;
    forall j: nat ensures OnMajority(n', j, majority) <==> Committable(m, j, majority) {
      assert Matching(m.matchIndex, j) == Storing(n', j);
    }
    NotedSame(n, m, n', rs);
    assert n.applied + [] == n.applied;
  }

  lemma NotedSame(n: NodeState, m: NodeState, n': NodeState, rs: seq<RpcResult>)
    requires Noted(n, m, rs) && n'.matchIndex == m.matchIndex && n'.nextIndex == m.nextIndex
    ensures Noted(n, n', rs)
  {
    forall k | 0 <= k < |rs| ensures NotedAt(n, n', rs[k]) {
      assert NotedAt(n, m, rs[k]);
    }
    forall p | Silent(rs, p) ensures IndicesKept(n, n', p) {
      assert IndicesKept(n, m, p);
    }
  }

  // ----- in runs -----

  /** The request shows all of leader `i`'s log that comes after the entries it takes for granted,
      and names the leader's term and commit index. */
  ghost predicate Shows(n: NodeState, i: NodeId, req: AppendRequest) {
    && req.term == n.term && req.leader == i && req.leaderCommit == n.commitIndex
    && req.prevIndex <= |n.log| && n.log == n.log[..req.prevIndex] + req.entries
    && (req.prevTerm == if req.prevIndex == 0 then 0 else n.log[req.prevIndex - 1].term)
  }

  /** A round of any run asks every peer once, and shows it the log from its next index on. */
  lemma RoundAsksAll(cfg: Config, run: seq<Action>, i: NodeId, p: NodeId) returns (m: AppendMsg)
    requires i in cfg.members && p in cfg.members - {i} && i in After(cfg, run).servers
    requires After(cfg, run).servers[i].node.role.Leader? && After(cfg, run).servers[i].thread.Idle?
    ensures var n, c' := After(cfg, run).servers[i].node, After(cfg, run + [StartRound(i)]);
      && m in c'.net.appends && m.to == p && Shows(n, i, m.req)
      && (p in n.nextIndex ==> m.req.prevIndex + 1 == n.nextIndex[p])
      && i in c'.servers && c'.servers[i].thread.Round?
      && (forall o :: o in c'.servers[i].thread.sent && o.to == p <==> o == m)
  {
    var c, n := After(cfg, run), After(cfg, run).servers[i].node;
    assert (run + [StartRound(i)])[..|run|] == run;
    RequestsInBounds(cfg, run, i, p);
    m := AppendMsg(p, BuildAppend(FillNextIndex(n, cfg.members - {i}), i, p), n.log);
    var prev := m.req.prevIndex;
    assert n.log == n.log[..prev] + n.log[prev..];
    assert m in RoundRequests(cfg, FillNextIndex(n, cfg.members - {i}), i);
  }

  lemma TwoMoreSteps(cfg: Config, run: seq<Action>, a: Action, b: Action)
    ensures After(cfg, run + [a, b]) == Step(cfg, Step(cfg, After(cfg, run), a), b)
  {
    assert (run + [a, b])[..|run| + 1] == run + [a];
    assert (run + [a])[..|run|] == run;
  }

  /** What a leader's round has sent went to other nodes, in the leader's term. */
  lemma SentToAnother(cfg: Config, run: seq<Action>, i: NodeId, m: AppendMsg)
    requires i in After(cfg, run).servers
    requires var s := After(cfg, run).servers[i]; s.node.role.Leader? && s.thread.Round? && m in s.thread.sent
    ensures m in After(cfg, run).net.appends && m.to != i && m.to in cfg.members
    ensures m.req.term == After(cfg, run).servers[i].node.term
  {
    BaseAlways(cfg, run);
    Facts(cfg, After(cfg, run), i);
    assert SentByPeer(cfg, m);
  }

  /** An old leader learns: if one of the nodes it has asked is in a higher term, that node's
      answer, being the first of its kind, makes it a follower of that term. */
  lemma OldLeaderLearns(cfg: Config, run: seq<Action>, i: NodeId, m: AppendMsg, rs: seq<AppendReplyMsg>, k: int,
                        timedOut: bool)
    requires i in cfg.members && i in After(cfg, run).servers
    requires var s := After(cfg, run).servers[i]; s.node.role.Leader? && s.thread.Round? && m in s.thread.sent
    requires var c := After(cfg, run);
      && m.to in c.servers && c.servers[m.to].node.term > c.servers[i].node.term
      && 0 <= k < |rs| && rs[k] == AppendReplyMsg(m, AppendReply(c.servers[m.to].node.term, false))
      && (forall j :: 0 <= j < k ==> rs[j].reply.term <= c.servers[i].node.term)
      && AnswersTo(Step(cfg, c, HandleAppend(m)), c.servers[i].thread.sent, rs)
    ensures var c, c' := After(cfg, run), After(cfg, run + [HandleAppend(m), EndRound(i, rs, timedOut)]);
      && i in c'.servers && c'.servers[i].thread.Idle?
      && c'.servers[i].node.role == Follower && c'.servers[i].node.term == c.servers[m.to].node.term
  {
    var c := After(cfg, run);
    var n := c.servers[i].node;
    TwoMoreSteps(cfg, run, HandleAppend(m), EndRound(i, rs, timedOut));
    SentToAnother(cfg, run, i, m);
    var c1 := Step(cfg, c, HandleAppend(m));
    assert c1.servers[i] == c.servers[i];
    NewerResult(rs, n.term, k);
    DeposedOutcome(n, ResultsOf(rs), k, Quorum(cfg), timedOut, cfg.keepVote);
  }

  lemma NewerResult(rs: seq<AppendReplyMsg>, t: Term, k: int)
    requires 0 <= k < |rs| && rs[k].reply.term > t && forall j :: 0 <= j < k ==> rs[j].reply.term <= t
    ensures FirstNewer(ResultsOf(rs), t, k)
  {
    var results := ResultsOf(rs);
    forall j | Heard(results[..k], j) ensures results[..k][j].reply.value.term <= t {
      assert results[j] == ResultOf(rs[j]);
    }
  }

  /** And it always can: that node's answer is there once it has handled the request. */
  lemma OldLeaderCanLearn(cfg: Config, run: seq<Action>, i: NodeId, m: AppendMsg)
    requires i in cfg.members && i in After(cfg, run).servers
    requires var s := After(cfg, run).servers[i]; s.node.role.Leader? && s.thread.Round? && m in s.thread.sent
    requires m.to in After(cfg, run).servers
    requires After(cfg, run).servers[m.to].node.term > After(cfg, run).servers[i].node.term
    ensures var c := After(cfg, run);
      AnswersTo(Step(cfg, c, HandleAppend(m)), c.servers[i].thread.sent,
                [AppendReplyMsg(m, AppendReply(c.servers[m.to].node.term, false))])
  {
    SentToAnother(cfg, run, i, m);
    var outcome := AppendOutcome(After(cfg, run).servers[m.to].node, m.req);
  }

  /** An old candidate learns, too: asked by it, a node in a higher term makes it adopt that term. */
  lemma OldCandidateLearns(cfg: Config, run: seq<Action>, i: NodeId, v: NodeId) returns (more: seq<Action>)
    requires i in cfg.members && v in cfg.members && v != i && i in After(cfg, run).servers
    requires v in After(cfg, run).servers
    requires var s := After(cfg, run).servers[i];
      Asking(s.thread) && s.node.role.Candidate? && v !in s.thread.votes
    requires After(cfg, run).servers[v].node.term > After(cfg, run).servers[i].node.term
    ensures var c, c' := After(cfg, run), After(cfg, run + more);
      && i in c'.servers && c'.servers[i].thread.Idle?
      && c'.servers[i].node.role == Follower && c'.servers[i].node.term == c.servers[v].node.term
  {
    var c := After(cfg, run);
    var s, t := c.servers[i], c.servers[v].node.term;
    var req := BuildVoteRequest(s.node, i);
    var m := VoteMsg(v, req, s.thread.since);
    var r := VoteReplyMsg(m, VoteReply(t, false), c.servers[v].node.log);
    VoteOutcome(c.servers[v].node, req);
    var c1 := Step(cfg, c, AskVote(i, v, req));
    var c2 := Step(cfg, c1, HandleVote(m));
    assert r in c2.net.voteReplies && c2.servers[i] == s;
    var c3 := Step(cfg, c2, CountVote(i, r));
    more := [AskVote(i, v, req), HandleVote(m)] + [CountVote(i, r), Adopt(i)];
    TwoMoreSteps(cfg, run, AskVote(i, v, req), HandleVote(m));
    TwoMoreSteps(cfg, run + [AskVote(i, v, req), HandleVote(m)], CountVote(i, r), Adopt(i));
    assert run + more == run + [AskVote(i, v, req), HandleVote(m)] + [CountVote(i, r), Adopt(i)];
  }
}
