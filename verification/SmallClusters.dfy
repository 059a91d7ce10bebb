/** Clusters of one or two nodes, in every run, however late newer terms are adopted: every leader
    needs the vote of every node, so all logs form one chain that only grows. */
module SmallClusters {
  import opened RaftTypes
  import opened RaftSteps
  import opened Cluster
  import opened ElectionSafety
  import opened LogMerge
  import opened LogSafety
  import opened CommitSafety
  import opened AnyRun
  import opened RaftTheorems

  lemma NoThird(members: set<NodeId>, x: NodeId, y: NodeId, i: NodeId)
    requires |members| <= 2 && x in members && y in members && i in members && x != y
    ensures i == x || i == y
  {
    assert members == {x, y} + (members - {x, y});
    assert |members| == 2 + |members - {x, y}|;
  }

  // ----- the invariant -----

  ghost predicate Sorted(log: Log) {
    forall j, k :: 0 <= j < k < |log| ==> log[j].term <= log[k].term
  }

  predicate Comparable<T(==)>(a: seq<T>, b: seq<T>) {
    a <= b || b <= a
  }

  /** `r` grants candidate `x` the vote of `y`, as asked for in x's candidacy of term t. */
  ghost predicate GrantsIn(r: VoteReplyMsg, x: NodeId, y: NodeId, t: Term) {
    r.reply.granted && r.msg.req.candidate == x && r.msg.to == y && r.msg.since == t && r.msg.req.term == t
  }

  ghost predicate Granted(replies: set<VoteReplyMsg>, x: NodeId, y: NodeId, t: Term) {
    exists r :: r in replies && GrantsIn(r, x, y, t)
  }

  ghost predicate Backed(replies: set<VoteReplyMsg>, x: NodeId, n: NodeState, y: NodeId) {
    n.role.Candidate? && Granted(replies, x, y, n.term)
  }

  /** Whoever leads, or has the other's vote and may come to lead, is ahead of the other. */
  ghost predicate PairOk(replies: set<VoteReplyMsg>, x: NodeId, n: NodeState, y: NodeId, m: NodeState) {
    && Comparable(n.log, m.log)
    && (n.role.Leader? || Backed(replies, x, n, y) ==>
          m.log <= n.log && !m.role.Leader? && !Backed(replies, y, m, x) && Below(n.log, n.term + 1))
  }

  ghost predicate PairsOk(replies: set<VoteReplyMsg>, servers: Servers) {
    forall x, y {:trigger PairOk(replies, x, servers[x].node, y, servers[y].node)} ::
      x in servers && y in servers && x != y ==> PairOk(replies, x, servers[x].node, y, servers[y].node)
  }

  /** Some node's level has reached the term. */
  ghost predicate TermReached(servers: Servers, t: Term) {
    exists z :: z in servers && t <= Level(servers[z])
  }

  ghost predicate TermsReached(servers: Servers, log: Log) {
    forall k {:trigger log[k]} :: 0 <= k < |log| ==> TermReached(servers, log[k].term)
  }

  ghost predicate LogOk(servers: Servers, i: NodeId)
    requires i in servers
  {
    && Sorted(servers[i].node.log) && TermsReached(servers, servers[i].node.log)
    && (servers[i].node.role.Leader? ==> Below(servers[i].node.log, servers[i].node.term + 1))
  }

  ghost predicate LogsOk(servers: Servers) {
    forall i {:trigger LogOk(servers, i)} :: i in servers ==> LogOk(servers, i)
  }

  /** What a candidate has counted are grants of this candidacy. */
  ghost predicate CountOk(replies: set<VoteReplyMsg>, i: NodeId, s: Server) {
    s.node.role.Candidate? && s.thread.Campaign? ==>
      forall v :: v in s.thread.votes ==> Granted(replies, i, v, s.node.term)
  }

  ghost predicate CountsOk(replies: set<VoteReplyMsg>, servers: Servers) {
    forall i {:trigger CountOk(replies, i, servers[i])} :: i in servers ==> CountOk(replies, i, servers[i])
  }

  ghost predicate RequestOk(servers: Servers, m: AppendMsg) {
    m.req.leader in servers && m.log <= servers[m.req.leader].node.log
  }

  ghost predicate RequestsOk(appends: set<AppendMsg>, servers: Servers) {
    forall m {:trigger RequestOk(servers, m)} :: m in appends ==> RequestOk(servers, m)
  }

  ghost predicate AllApplied(servers: Servers) {
    forall i {:trigger AppliesCommitted(servers[i].node)} :: i in servers ==> AppliesCommitted(servers[i].node)
  }

  ghost predicate Chain(c: Cluster) {
    && PairsOk(c.net.voteReplies, c.servers) && LogsOk(c.servers) && CountsOk(c.net.voteReplies, c.servers)
    && RequestsOk(c.net.appends, c.servers) && AllApplied(c.servers)
  }

  // ----- facts about logs -----

  lemma UpToDateIsLonger(x: Log, y: Log)
    requires Comparable(x, y) && Sorted(y) && UpToDate(LastTerm(x), |x|, y)
    ensures y <= x
  {
    if x <= y && x != [] {
      assert x[|x| - 1] == y[|x| - 1];
    }
  }

  /** The chain merges without a cut. */
  lemma ChainMerge(log: Log, full: Log, at: nat)
    requires Comparable(log, full) && at <= |log| && at <= |full|
    ensures MergeEntries(log, at, full[at..]) == if full <= log then log else full
  {
    assert LogsMatch(log, full);
    assert log[..at] == full[..at];
    MergeMatching(log, at, full);
  }

  lemma TermsBelow(cfg: Config, servers: Servers, x: NodeId, y: NodeId, t: Term)
    requires |cfg.members| <= 2 && servers.Keys == cfg.members && x in servers && y in servers && x != y
    requires TermsReached(servers, servers[x].node.log) && Level(servers[x]) <= t && Level(servers[y]) <= t
    ensures Below(servers[x].node.log, t + 1)
  {
    var log := servers[x].node.log;
    forall k | 0 <= k < |log| ensures log[k].term < t + 1 {
      assert TermReached(servers, log[k].term);
      var z :| z in servers && log[k].term <= Level(servers[z]);
      NoThird(cfg.members, x, y, z);
    }
  }

  // ----- one node changes -----

  lemma ReachedAfter(servers: Servers, i: NodeId, s: Server, log: Log)
    requires i in servers && Level(servers[i]) <= Level(s) && TermsReached(servers, log)
    ensures TermsReached(servers[i := s], log)
  {
    var after := servers[i := s];
    forall k | 0 <= k < |log| ensures TermReached(after, log[k].term) {
      assert TermReached(servers, log[k].term);
      var z :| z in servers && log[k].term <= Level(servers[z]);
      assert z in after && log[k].term <= Level(after[z]);
    }
  }

  lemma LogsAfter(servers: Servers, i: NodeId, s: Server)
    requires LogsOk(servers) && i in servers && Level(servers[i]) <= Level(s)
    requires Sorted(s.node.log) && TermsReached(servers[i := s], s.node.log)
    requires s.node.role.Leader? ==> Below(s.node.log, s.node.term + 1)
    ensures LogsOk(servers[i := s])
  {
    var after := servers[i := s];
    forall j | j in after ensures LogOk(after, j) {
      if j != i {
        assert LogOk(servers, j);
        ReachedAfter(servers, i, s, servers[j].node.log);
      }
    }
  }

  lemma RequestsAfter(appends: set<AppendMsg>, servers: Servers, i: NodeId, s: Server)
    requires RequestsOk(appends, servers) && i in servers && servers[i].node.log <= s.node.log
    ensures RequestsOk(appends, servers[i := s])
  {
    forall m | m in appends ensures RequestOk(servers[i := s], m) {
      assert RequestOk(servers, m);
    }
  }

  lemma CountsAfter(replies: set<VoteReplyMsg>, more: set<VoteReplyMsg>, servers: Servers, i: NodeId, s: Server)
    requires CountsOk(replies, servers) && i in servers && CountOk(more, i, s) && replies <= more
    ensures CountsOk(more, servers[i := s])
  {
    var after := servers[i := s];
    forall j | j in after ensures CountOk(more, j, after[j]) {
      assert j in servers ==> CountOk(replies, j, servers[j]);
    }
  }

  ghost predicate BothOk(replies: set<VoteReplyMsg>, x: NodeId, n: NodeState, y: NodeId, m: NodeState) {
    PairOk(replies, x, n, y, m) && PairOk(replies, y, m, x, n)
  }

  lemma PairsAfter(cfg: Config, replies: set<VoteReplyMsg>, servers: Servers, i: NodeId, s: Server)
    requires |cfg.members| <= 2 && servers.Keys == cfg.members && i in servers
    requires forall j {:trigger servers[j]} :: j in servers && j != i ==> BothOk(replies, i, s.node, j, servers[j].node)
    ensures PairsOk(replies, servers[i := s])
  {
    var after := servers[i := s];
    forall x, y | x in after && y in after && x != y ensures PairOk(replies, x, after[x].node, y, after[y].node) {
      NoThird(cfg.members, x, y, i);
      var j := if x == i then y else x;
      assert BothOk(replies, i, s.node, j, servers[j].node);
    }
  }

  /** `c'` differs from `c` in node i and perhaps in requests, elections and other history. */
  ghost predicate NodeMoves(c: Cluster, c': Cluster, i: NodeId, s: Server) {
    i in c.servers && c'.servers == c.servers[i := s] && c'.net.voteReplies == c.net.voteReplies
  }

  lemma ChainKeptByNode(cfg: Config, c: Cluster, c': Cluster, i: NodeId, s: Server)
    requires |cfg.members| <= 2 && c.servers.Keys == cfg.members && Chain(c) && NodeMoves(c, c', i, s)
    requires RequestsOk(c'.net.appends, c'.servers)
    requires Level(c.servers[i]) <= Level(s) && c.servers[i].node.log <= s.node.log
    requires Sorted(s.node.log) && TermsReached(c'.servers, s.node.log)
    requires s.node.role.Leader? ==> Below(s.node.log, s.node.term + 1)
    requires CountOk(c.net.voteReplies, i, s) && AppliesCommitted(s.node)
    requires forall j {:trigger c.servers[j]} :: j in c.servers && j != i ==>
               BothOk(c.net.voteReplies, i, s.node, j, c.servers[j].node)
    ensures Chain(c')
  {
    LogsAfter(c.servers, i, s);
    CountsAfter(c.net.voteReplies, c.net.voteReplies, c.servers, i, s);
    PairsAfter(cfg, c.net.voteReplies, c.servers, i, s);
  }

  /** The log stays, and no role is gained. */
  ghost predicate Settles(n: NodeState, n': NodeState) {
    && n'.log == n.log
    && (n'.role.Leader? ==> n.role.Leader? && n'.term == n.term)
    && (n'.role.Candidate? ==> n.role.Candidate? && n'.term == n.term)
  }

  lemma ChainKeptBySettling(cfg: Config, c: Cluster, c': Cluster, i: NodeId, s: Server)
    requires |cfg.members| <= 2 && c.servers.Keys == cfg.members && Chain(c) && NodeMoves(c, c', i, s)
    requires c'.net.appends == c.net.appends && Level(c.servers[i]) <= Level(s) && Settles(c.servers[i].node, s.node)
    requires CountOk(c.net.voteReplies, i, s) && AppliesCommitted(s.node)
    ensures Chain(c')
  {
    var n := c.servers[i].node;
    assert LogOk(c.servers, i);
    ReachedAfter(c.servers, i, s, n.log);
    RequestsAfter(c.net.appends, c.servers, i, s);
    forall j | j in c.servers && j != i ensures BothOk(c.net.voteReplies, i, s.node, j, c.servers[j].node) {
      assert PairOk(c.net.voteReplies, i, n, j, c.servers[j].node);
      assert PairOk(c.net.voteReplies, j, c.servers[j].node, i, n);
    }
    ChainKeptByNode(cfg, c, c', i, s);
  }

  ghost predicate Small(cfg: Config, c: Cluster) {
    |cfg.members| <= 2 && Base(cfg, c) && Chain(c)
  }

  lemma ChainFacts(cfg: Config, c: Cluster, i: NodeId)
    requires Small(cfg, c) && i in c.servers
    ensures ServerOk(cfg, c.hist.ballots, c.hist.elections, i, c.servers[i])
    ensures LocalOk(cfg, c.net.appends, i, c.servers[i])
    ensures LogOk(c.servers, i) && CountOk(c.net.voteReplies, i, c.servers[i]) && AppliesCommitted(c.servers[i].node)
  {
    Facts(cfg, c, i);
  }

  // ----- elections -----

  lemma ChainKeptByCountVote(cfg: Config, c: Cluster, i: NodeId, r: VoteReplyMsg)
    requires Small(cfg, c) && Enabled(cfg, c, CountVote(i, r))
    ensures Chain(DoCountVote(c, i, r))
  {
    var c' := DoCountVote(c, i, r);
    ChainFacts(cfg, c, i);
    assert VoteReplyOk(c.net.votes, c.hist.ballots, r);
    assert CallOk(cfg, c.hist.ballots, c.servers, r.msg);
    if r.reply.granted && c.servers[i].node.role.Candidate? {
      assert GrantsIn(r, i, r.msg.to, c.servers[i].node.term);
    }
    ChainKeptBySettling(cfg, c, c', i, c'.servers[i]);
  }

  lemma ChainKeptByAdopt(cfg: Config, c: Cluster, i: NodeId)
    requires Small(cfg, c) && Enabled(cfg, c, Adopt(i))
    ensures Chain(DoAdopt(c, i))
  {
    var c' := DoAdopt(c, i);
    ChainFacts(cfg, c, i);
    ChainKeptBySettling(cfg, c, c', i, c'.servers[i]);
  }

  /** Nobody has been granted a vote in a candidacy that is only beginning. */
  lemma NoGrantYet(cfg: Config, c: Cluster, i: NodeId, y: NodeId, t: Term)
    requires Base(cfg, c) && i in c.servers && t > Level(c.servers[i])
    ensures !Granted(c.net.voteReplies, i, y, t)
  {
    forall r | r in c.net.voteReplies ensures !GrantsIn(r, i, y, t) {
      assert VoteReplyOk(c.net.votes, c.hist.ballots, r);
      assert CallOk(cfg, c.hist.ballots, c.servers, r.msg);
    }
  }

  lemma ChainKeptByStartElection(cfg: Config, c: Cluster, i: NodeId)
    requires Small(cfg, c) && Enabled(cfg, c, StartElection(i))
    ensures Chain(DoStartElection(c, i))
  {
    var n, c' := c.servers[i].node, DoStartElection(c, i);
    var s := c'.servers[i];
    ChainFacts(cfg, c, i);
    ReachedAfter(c.servers, i, s, n.log);
    RequestsAfter(c.net.appends, c.servers, i, s);
    forall j | j in c.servers && j != i ensures BothOk(c.net.voteReplies, i, s.node, j, c.servers[j].node) {
      assert PairOk(c.net.voteReplies, i, n, j, c.servers[j].node);
      assert PairOk(c.net.voteReplies, j, c.servers[j].node, i, n);
      NoGrantYet(cfg, c, i, j, s.node.term);
    }
    ChainKeptByNode(cfg, c, c', i, s);
  }

  /** The other node has voted for the winner, so the winner is ahead of it. */
  lemma ChainKeptByWin(cfg: Config, c: Cluster, i: NodeId)
    requires Small(cfg, c) && Enabled(cfg, c, EndElection(i)) && DoEndElection(cfg, c, i).servers[i].node.role.Leader?
    ensures Chain(DoEndElection(cfg, c, i))
  {
    var n, c' := c.servers[i].node, DoEndElection(cfg, c, i);
    var s, votes := c'.servers[i], c.servers[i].thread.votes;
    ChainFacts(cfg, c, i);
    ReachedAfter(c.servers, i, s, n.log);
    RequestsAfter(c.net.appends, c.servers, i, s);
    forall j | j in c.servers && j != i
      ensures BothOk(c.net.voteReplies, i, s.node, j, c.servers[j].node) && Below(n.log, n.term + 1)
    {
      OtherVoted(cfg, votes, i, j);
      assert PairOk(c.net.voteReplies, i, n, j, c.servers[j].node);
      assert PairOk(c.net.voteReplies, j, c.servers[j].node, i, n);
    }
    if !(exists j :: j in c.servers && j != i) {
      OwnTermsBelow(c.servers, i, n.term);
    }
    ChainKeptByNode(cfg, c, c', i, s);
  }

  lemma OtherVoted(cfg: Config, votes: map<NodeId, Log>, i: NodeId, j: NodeId)
    requires |cfg.members| <= 2 && i in cfg.members && j in cfg.members && i != j
    requires votes.Keys <= cfg.members - {i} && 1 + |votes| >= Quorum(cfg)
    ensures j in votes
  {
    assert {i, j} <= cfg.members && |{i, j}| == 2;
    SubsetSize({i, j}, cfg.members);
    assert |votes.Keys| == |votes| >= 1;
    var v :| v in votes.Keys;
    NoThird(cfg.members, i, j, v);
  }

  lemma OwnTermsBelow(servers: Servers, i: NodeId, t: Term)
    requires i in servers && TermsReached(servers, servers[i].node.log) && Level(servers[i]) <= t
    requires forall j :: j in servers ==> j == i
    ensures Below(servers[i].node.log, t + 1)
  {
    var log := servers[i].node.log;
    forall k | 0 <= k < |log| ensures log[k].term < t + 1 {
      assert TermReached(servers, log[k].term);
    }
  }

  lemma ChainKeptByEndElection(cfg: Config, c: Cluster, i: NodeId)
    requires Small(cfg, c) && Enabled(cfg, c, EndElection(i))
    ensures Chain(DoEndElection(cfg, c, i))
  {
    var c' := DoEndElection(cfg, c, i);
    ChainFacts(cfg, c, i);
    if c'.servers[i].node.role.Leader? {
      ChainKeptByWin(cfg, c, i);
    } else {
      ChainKeptBySettling(cfg, c, c', i, c'.servers[i]);
    }
  }

  // ----- votes -----

  /** A reply that grants nothing new to a candidate changes nothing. */
  lemma GrantedBefore(replies: set<VoteReplyMsg>, r: VoteReplyMsg, x: NodeId, y: NodeId, t: Term)
    ensures Granted(replies + {r}, x, y, t) <==> Granted(replies, x, y, t) || GrantsIn(r, x, y, t)
  {
    if Granted(replies, x, y, t) {
      var q :| q in replies && GrantsIn(q, x, y, t);
      assert q in replies + {r};
    }
    if GrantsIn(r, x, y, t) {
      assert r in replies + {r};
    }
  }

  /** A grant goes to a candidate that is ahead of the voter. */
  lemma GrantIsEarned(cfg: Config, c: Cluster, m: VoteMsg, n': NodeState)
    requires Small(cfg, c) && Enabled(cfg, c, HandleVote(m)) && HandleRequestVote(c.servers[m.to].node, m.req).1.granted
    requires n' == HandleRequestVote(c.servers[m.to].node, m.req).0
    requires m.req.candidate in c.servers
    requires c.servers[m.req.candidate].node.role.Candidate? && m.since == c.servers[m.req.candidate].node.term
    ensures var x := c.servers[m.req.candidate].node;
      n'.log <= x.log && n'.role.Follower? && Below(x.log, x.term + 1)
  {
    var i := m.req.candidate;
    var x, y := c.servers[i], c.servers[m.to];
    ChainFacts(cfg, c, i);
    ChainFacts(cfg, c, m.to);
    assert CallOk(cfg, c.hist.ballots, c.servers, m);
    assert PairOk(c.net.voteReplies, i, x.node, m.to, y.node);
    UpToDateIsLonger(x.node.log, y.node.log);
    TermsBelow(cfg, c.servers, i, m.to, x.node.term);
  }

  lemma ChainKeptByHandleVote(cfg: Config, c: Cluster, m: VoteMsg)
    requires Small(cfg, c) && Enabled(cfg, c, HandleVote(m))
    ensures Chain(DoHandleVote(c, m))
  {
    var s, c' := c.servers[m.to], DoHandleVote(c, m);
    var s', r := c'.servers[m.to], VoteReplyMsg(m, HandleRequestVote(s.node, m.req).1, s.node.log);
    var replies, more := c.net.voteReplies, c'.net.voteReplies;
    ChainFacts(cfg, c, m.to);
    assert CallOk(cfg, c.hist.ballots, c.servers, m);
    RequestVoteFacts(cfg, s.node, m.req, m.to);
    ReachedAfter(c.servers, m.to, s', s.node.log);
    LogsAfter(c.servers, m.to, s');
    RequestsAfter(c.net.appends, c.servers, m.to, s');
    assert CountOk(more, m.to, s') by { MoreGrants(replies, r, m.to, s, s'); }
    CountsAfter(replies, more, c.servers, m.to, s');
    forall j {:trigger c.servers[j]} | j in c.servers && j != m.to
      ensures BothOk(more, m.to, s'.node, j, c.servers[j].node)
    {
      VotePair(cfg, c, m, j);
    }
    PairsAfter(cfg, more, c.servers, m.to, s');
  }

  lemma MoreGrants(replies: set<VoteReplyMsg>, r: VoteReplyMsg, i: NodeId, s: Server, s': Server)
    requires CountOk(replies, i, s) && s'.thread == s.thread
    requires s'.node.role.Candidate? ==> s.node.role.Candidate? && s'.node.term == s.node.term
    ensures CountOk(replies + {r}, i, s')
  {
    if s'.node.role.Candidate? && s.thread.Campaign? {
      forall v | v in s.thread.votes ensures Granted(replies + {r}, i, v, s'.node.term) {
        GrantedBefore(replies, r, i, v, s.node.term);
      }
    }
  }

  lemma VotePair(cfg: Config, c: Cluster, m: VoteMsg, j: NodeId)
    requires Small(cfg, c) && Enabled(cfg, c, HandleVote(m)) && j in c.servers && j != m.to
    ensures var c' := DoHandleVote(c, m);
      BothOk(c'.net.voteReplies, m.to, c'.servers[m.to].node, j, c.servers[j].node)
  {
    var n, q, c' := c.servers[m.to].node, c.servers[j].node, DoHandleVote(c, m);
    var n', replies := c'.servers[m.to].node, c.net.voteReplies;
    var r := VoteReplyMsg(m, HandleRequestVote(n, m.req).1, n.log);
    ChainFacts(cfg, c, m.to);
    assert CallOk(cfg, c.hist.ballots, c.servers, m);
    RequestVoteFacts(cfg, n, m.req, m.to);
    NoThird(cfg.members, m.to, j, m.req.candidate);
    assert PairOk(replies, m.to, n, j, q) && PairOk(replies, j, q, m.to, n);
    GrantedBefore(replies, r, m.to, j, n'.term);
    GrantedBefore(replies, r, j, m.to, q.term);
    if GrantsIn(r, j, m.to, q.term) && q.role.Candidate? {
      GrantIsEarned(cfg, c, m, n');
    }
  }

  // ----- replication -----

  lemma AppliedAfter(n: NodeState, n': NodeState, commit: nat)
    requires AppliesCommitted(n) && n.log <= n'.log && n.commitIndex <= commit <= |n'.log|
    requires n'.commitIndex == commit && n'.lastApplied == commit
    requires n'.applied == n.applied + Results(n'.log, n.commitIndex, commit)
    ensures AppliesCommitted(n')
  {
    SameResults(n.log, n'.log, n.commitIndex);
    JoinResults(n'.log, n.commitIndex, commit);
  }

  lemma ChainTakes(n: NodeState, m: AppendMsg)
    requires AppliesCommitted(n) && Comparable(n.log, m.log) && WellBuilt(m) && m.req.prevIndex <= |n.log|
    ensures var n' := AcceptEntries(n, m.req);
      n'.log == (if m.log <= n.log then n.log else m.log) && AppliesCommitted(n')
  {
    var n' := AcceptEntries(n, m.req);
    ChainMerge(n.log, m.log, m.req.prevIndex);
    AppliedAfter(n, n', n'.commitIndex);
  }

  /** On a chain, accepting a request never cuts the log. */
  lemma ChainAccepts(n: NodeState, m: AppendMsg)
    requires AppliesCommitted(n) && Comparable(n.log, m.log) && WellBuilt(m)
    ensures var (n', reply) := HandleAppendEntries(n, m.req);
      && n.log <= n'.log && AppliesCommitted(n')
      && (reply.success ==> n'.log == if m.log <= n.log then n.log else m.log)
      && (!reply.success ==> n'.log == n.log)
      && (n' == n || n'.role.Follower?) && n.term <= n'.term
  {
    var (n', reply) := HandleAppendEntries(n, m.req);
    if reply.success {
      ChainTakes(HeardLeader(n, m.req.term), m);
    }
  }

  /** A request lies on the chain with the log of its receiver. */
  lemma RequestComparable(cfg: Config, c: Cluster, m: AppendMsg)
    requires Small(cfg, c) && m in c.net.appends && m.to in c.servers
    ensures Comparable(c.servers[m.to].node.log, m.log) && WellBuilt(m)
    ensures AppliesCommitted(c.servers[m.to].node)
  {
    var l := m.req.leader;
    assert SentByPeer(cfg, m) && RequestOk(c.servers, m);
    ChainFacts(cfg, c, m.to);
    assert PairOk(c.net.voteReplies, l, c.servers[l].node, m.to, c.servers[m.to].node);
  }

  lemma ChainKeptByHandleAppend(cfg: Config, c: Cluster, m: AppendMsg)
    requires Small(cfg, c) && Enabled(cfg, c, HandleAppend(m))
    ensures Chain(DoHandleAppend(c, m))
  {
    var c', l := DoHandleAppend(c, m), m.req.leader;
    var n, s' := c.servers[m.to].node, c'.servers[m.to];
    assert SentByPeer(cfg, m) && RequestOk(c.servers, m);
    ChainFacts(cfg, c, m.to);
    ChainFacts(cfg, c, l);
    RequestComparable(cfg, c, m);
    ChainAccepts(n, m);
    PrefixOk(c.servers, s'.node.log, n.log, c.servers[l].node.log);
    ReachedAfter(c.servers, m.to, s', s'.node.log);
    RequestsAfter(c.net.appends, c.servers, m.to, s');
    forall j {:trigger c.servers[j]} | j in c.servers && j != m.to
      ensures BothOk(c.net.voteReplies, m.to, s'.node, j, c.servers[j].node)
    {
      NoThird(cfg.members, m.to, j, l);
      assert PairOk(c.net.voteReplies, m.to, n, j, c.servers[j].node);
      assert PairOk(c.net.voteReplies, j, c.servers[j].node, m.to, n);
    }
    ChainKeptByNode(cfg, c, c', m.to, s');
  }

  /** What holds of the terms of two logs holds of a log that begins one of them. */
  lemma PrefixOk(servers: Servers, log: Log, a: Log, b: Log)
    requires log <= a || log <= b
    requires Sorted(a) && Sorted(b) && TermsReached(servers, a) && TermsReached(servers, b)
    ensures Sorted(log) && TermsReached(servers, log)
  {
    var full := if log <= a then a else b;
    forall k | 0 <= k < |log| ensures TermReached(servers, log[k].term) {
      assert log[k] == full[k];
    }
    forall j, k | 0 <= j < k < |log| ensures log[j].term <= log[k].term {
      assert log[j] == full[j] && log[k] == full[k];
    }
  }

  lemma ChainKeptByEndRound(cfg: Config, c: Cluster, i: NodeId, rs: seq<AppendReplyMsg>, timedOut: bool)
    requires Small(cfg, c) && Enabled(cfg, c, EndRound(i, rs, timedOut))
    ensures Chain(DoEndRound(cfg, c, i, rs, timedOut))
  {
    var n, c' := c.servers[i].node, DoEndRound(cfg, c, i, rs, timedOut);
    ChainFacts(cfg, c, i);
    FinishRoundIsQuiet(cfg, n, ResultsOf(rs), timedOut);
    RoundApplies(cfg, n, ResultsOf(rs), timedOut);
    ChainKeptBySettling(cfg, c, c', i, c'.servers[i]);
  }

  lemma RoundApplies(cfg: Config, n: NodeState, rs: seq<RpcResult>, timedOut: bool)
    requires AppliesCommitted(n)
    ensures AppliesCommitted(FinishRound(n, rs, Quorum(cfg), timedOut, cfg.keepVote))
  {
    if n.role.Leader? {
      RepliesLeaveVote(Tally(n, 1, false), rs);
      var t := ProcessReplies(Tally(n, 1, false), rs);
      if !t.deposed {
        var m := AdvanceCommit(t.node, Quorum(cfg));
        ScanFinds(t.node, |t.node.log|, Quorum(cfg));
        assert Results(n.log, m.commitIndex, m.commitIndex) == [];
        AppliedAfter(n, ApplyCommitted(m), m.commitIndex);
      }
    }
  }

  lemma ChainKeptByStartRound(cfg: Config, c: Cluster, i: NodeId)
    requires Small(cfg, c) && Enabled(cfg, c, StartRound(i))
    ensures Chain(DoStartRound(cfg, c, i))
  {
    var c' := DoStartRound(cfg, c, i);
    var c1 := c'.(net := c.net);
    ChainFacts(cfg, c, i);
    ChainKeptBySettling(cfg, c, c1, i, c'.servers[i]);
    forall m | m in c'.net.appends ensures RequestOk(c'.servers, m) {
      assert m in c.net.appends ==> RequestOk(c1.servers, m);
    }
  }

  lemma ChainKeptBySetIndices(cfg: Config, c: Cluster, i: NodeId)
    requires Small(cfg, c) && Enabled(cfg, c, SetIndices(i))
    ensures Chain(Do(cfg, c, SetIndices(i)))
  {
    var c' := Do(cfg, c, SetIndices(i));
    ChainFacts(cfg, c, i);
    ChainKeptBySettling(cfg, c, c', i, c'.servers[i]);
  }

  lemma ChainKeptByPropose(cfg: Config, c: Cluster, i: NodeId, command: Bytes)
    requires Small(cfg, c) && Enabled(cfg, c, ProposeCommand(i, command))
    ensures Chain(DoPropose(c, i, command))
  {
    var n, c' := c.servers[i].node, DoPropose(c, i, command);
    var s' := c'.servers[i];
    ChainFacts(cfg, c, i);
    if n.role.Leader? {
      ReachedAfter(c.servers, i, s', n.log);
      assert TermReached(c'.servers, n.term) by { assert i in c'.servers && n.term <= Level(c'.servers[i]); }
      RequestsAfter(c.net.appends, c.servers, i, s');
      SameResults(n.log, s'.node.log, n.commitIndex);
      forall j {:trigger c.servers[j]} | j in c.servers && j != i
        ensures BothOk(c.net.voteReplies, i, s'.node, j, c.servers[j].node)
      {
        assert PairOk(c.net.voteReplies, i, n, j, c.servers[j].node);
        assert PairOk(c.net.voteReplies, j, c.servers[j].node, i, n);
      }
      ChainKeptByNode(cfg, c, c', i, s');
    }
  }

  // ----- runs -----

  lemma ChainKeptByStep(cfg: Config, c: Cluster, a: Action)
    requires Small(cfg, c)
    ensures Chain(Step(cfg, c, a))
  {
    if Enabled(cfg, c, a) {
      match a {
        case StartElection(i) => ChainKeptByStartElection(cfg, c, i);
        case AskVote(i, to, req) =>
        case HandleVote(m) => ChainKeptByHandleVote(cfg, c, m);
        case CountVote(i, r) => ChainKeptByCountVote(cfg, c, i, r);
        case Adopt(i) => ChainKeptByAdopt(cfg, c, i);
        case EndElection(i) => ChainKeptByEndElection(cfg, c, i);
        case SetIndices(i) => ChainKeptBySetIndices(cfg, c, i);
        case StartRound(i) => ChainKeptByStartRound(cfg, c, i);
        case HandleAppend(m) => ChainKeptByHandleAppend(cfg, c, m);
        case EndRound(i, rs, timedOut) => ChainKeptByEndRound(cfg, c, i, rs, timedOut);
        case ProposeCommand(i, command) => ChainKeptByPropose(cfg, c, i, command);
      }
    }
  }

  /** In every run of a cluster of at most two nodes, all logs form one chain. */
  lemma {:induction false} ChainAlways(cfg: Config, run: seq<Action>)
    requires |cfg.members| <= 2
    ensures Base(cfg, After(cfg, run)) && Chain(After(cfg, run))
    decreases |run|
  {
    BaseAlways(cfg, run);
    if run != [] {
      ChainAlways(cfg, run[..|run| - 1]);
      ChainKeptByStep(cfg, After(cfg, run[..|run| - 1]), run[|run| - 1]);
    }
  }

  // ----- what follows -----

  /** All logs agree as far as both go. */
  lemma OneChain(cfg: Config, run: seq<Action>, i: NodeId, j: NodeId)
    requires |cfg.members| <= 2 && i in After(cfg, run).servers && j in After(cfg, run).servers
    ensures Comparable(NodeOf(After(cfg, run), i).log, NodeOf(After(cfg, run), j).log)
  {
    var c := After(cfg, run);
    ChainAlways(cfg, run);
    if i != j {
      assert PairOk(c.net.voteReplies, i, NodeOf(c, i), j, NodeOf(c, j));
    }
  }

  /** Every node has applied exactly its committed log, and of two nodes one has applied what the
      other has, and perhaps more. */
  lemma SameApplied(cfg: Config, run: seq<Action>, i: NodeId, j: NodeId)
    requires |cfg.members| <= 2 && i in After(cfg, run).servers && j in After(cfg, run).servers
    ensures AppliesCommitted(NodeOf(After(cfg, run), i))
    ensures Comparable(NodeOf(After(cfg, run), i).applied, NodeOf(After(cfg, run), j).applied)
  {
    var c := After(cfg, run);
    ChainAlways(cfg, run);
    OneChain(cfg, run, i, j);
    var n, m := NodeOf(c, i), NodeOf(c, j);
    assert AppliesCommitted(c.servers[i].node) && AppliesCommitted(c.servers[j].node);
    AppliedAgree(n, m);
  }
}
