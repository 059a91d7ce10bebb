/** Elections (section 5.2 of the Raft paper): who may vote, who may win, and how often. */
module ElectionSafety {
  import opened RaftTypes
  import opened RaftSteps
  import opened Cluster

  type Servers = map<NodeId, Server>
  type Elections = map<Slot, Election>

  // ----- the invariant: nodes -----

  /** What a node's thread may rely on between its critical sections: still candidate means
      the term and log of the candidacy; still leader means the term of the round. */
  ghost predicate Shape(cfg: Config, i: NodeId, s: Server) {
    && (s.node.role.Candidate? ==>
          s.thread.Campaign? && s.thread.since == s.node.term && s.thread.began == s.node.log)
    && (s.node.role.Leader? ==> !s.thread.Campaign?)
    && (!s.node.role.Follower? ==> s.node.votedFor == Some(i) && s.node.term >= 1)
    && (s.thread.Campaign? ==> 1 <= s.thread.since <= s.node.term && s.thread.votes.Keys <= cfg.members - {i})
    && (s.thread.Round? ==> s.thread.term <= s.node.term)
    && (s.thread.Round? && s.node.role.Leader? ==> s.thread.term == s.node.term && s.thread.began <= s.node.log)
  }

  /** Every vote a candidate has counted is a vote for it, in its term, by a node whose log is
      no newer; its own vote is among the votes cast. */
  ghost predicate CountedVotes(ballots: set<Ballot>, i: NodeId, s: Server) {
    s.node.role.Candidate? && s.thread.Campaign? ==>
      && Ballot(i, s.node.term, i, s.node.log) in ballots
      && forall v :: v in s.thread.votes ==>
           && Ballot(v, s.node.term, i, s.thread.votes[v]) in ballots
           && UpToDate(LastTerm(s.node.log), |s.node.log|, s.thread.votes[v])
  }

  ghost predicate ServerOk(cfg: Config, ballots: set<Ballot>, elections: Elections, i: NodeId, s: Server) {
    && Shape(cfg, i, s)
    && CountedVotes(ballots, i, s)
    && (s.node.role.Leader? ==> Slot(s.node.term, i) in elections)
  }

  ghost predicate ServersOk(cfg: Config, ballots: set<Ballot>, elections: Elections, servers: Servers) {
    && servers.Keys == cfg.members
    && forall i {:trigger ServerOk(cfg, ballots, elections, i, servers[i])} :: i in servers ==>
      ServerOk(cfg, ballots, elections, i, servers[i])
  }

  // ----- the invariant: votes -----

  /** A ballot of the voter's current term is its present vote, unless the voter won the term
      with it and then stepped down. */
  ghost predicate CurrentVote(cfg: Config, elections: Elections, n: NodeState, b: Ballot) {
    b.term == n.term ==>
      || n.votedFor == Some(b.candidate)
      || (!cfg.keepVote && n.role.Follower? && b.candidate == b.voter && Slot(b.term, b.voter) in elections)
  }

  ghost predicate BallotOk(cfg: Config, elections: Elections, servers: Servers, b: Ballot) {
    && b.voter in servers && 1 <= b.term <= servers[b.voter].node.term
    && CurrentVote(cfg, elections, servers[b.voter].node, b)
  }

  ghost predicate BallotsOk(cfg: Config, ballots: set<Ballot>, elections: Elections, servers: Servers) {
    forall b {:trigger BallotOk(cfg, elections, servers, b)} :: b in ballots ==> BallotOk(cfg, elections, servers, b)
  }

  predicate Conflicting(a: Ballot, b: Ballot) {
    a.voter == b.voter && a.term == b.term && a.candidate != b.candidate
  }

  /** Two votes of one node in one term: only of a deposed leader, and one of them its own. */
  ghost predicate SplitVote(cfg: Config, elections: Elections, a: Ballot, b: Ballot) {
    !cfg.keepVote && Slot(a.term, a.voter) in elections && (a.candidate == a.voter || b.candidate == a.voter)
  }

  ghost predicate SingleVotes(cfg: Config, ballots: set<Ballot>, elections: Elections) {
    forall a, b {:trigger Conflicting(a, b)} :: a in ballots && b in ballots && Conflicting(a, b) ==>
      SplitVote(cfg, elections, a, b)
  }

  // ----- the invariant: messages -----

  ghost predicate VoteMsgOk(cfg: Config, servers: Servers, m: VoteMsg) {
    && m.req.candidate in servers && m.to in cfg.members && m.to != m.req.candidate
    && var n := servers[m.req.candidate].node;
       && 1 <= m.req.term <= n.term && m.since <= m.req.term
       && (n.role.Candidate? && n.term == m.req.term ==> m.req == BuildVoteRequest(n, m.req.candidate))
  }

  ghost predicate VoteMsgsOk(cfg: Config, votes: set<VoteMsg>, servers: Servers) {
    forall m {:trigger VoteMsgOk(cfg, servers, m)} :: m in votes ==> VoteMsgOk(cfg, servers, m)
  }

  ghost predicate VoteReplyOk(votes: set<VoteMsg>, ballots: set<Ballot>, r: VoteReplyMsg) {
    && r.msg in votes
    && (r.reply.granted ==>
          && Ballot(r.msg.to, r.msg.req.term, r.msg.req.candidate, r.log) in ballots
          && UpToDate(r.msg.req.lastTerm, r.msg.req.lastIndex, r.log))
  }

  ghost predicate VoteRepliesOk(votes: set<VoteMsg>, replies: set<VoteReplyMsg>, ballots: set<Ballot>) {
    forall r {:trigger VoteReplyOk(votes, ballots, r)} :: r in replies ==> VoteReplyOk(votes, ballots, r)
  }

  // ----- the invariant: elections won -----

  /** A majority voted, and no voter had a newer log. */
  ghost predicate ElectionOk(cfg: Config, ballots: set<Ballot>, s: Slot, e: Election) {
    && s.leader in e.voterLogs && e.voterLogs[s.leader] == e.startLog
    && e.voterLogs.Keys <= cfg.members && |e.voterLogs.Keys| >= Quorum(cfg)
    && forall v :: v in e.voterLogs ==>
         && Ballot(v, s.term, s.leader, e.voterLogs[v]) in ballots
         && (v != s.leader ==> UpToDate(LastTerm(e.startLog), |e.startLog|, e.voterLogs[v]))
  }

  ghost predicate ElectionsOk(cfg: Config, ballots: set<Ballot>, elections: Elections) {
    forall s {:trigger ElectionOk(cfg, ballots, s, elections[s])} :: s in elections ==>
      ElectionOk(cfg, ballots, s, elections[s])
  }

  /** Elections are numbered in the order in which they were won, and a leader of a term who
      voted for another leader of that term was elected before it. */
  ghost predicate OrderOk(elections: Elections, s: Slot)
    requires s in elections
  {
    && elections[s].order < |elections|
    && forall v :: v in elections[s].voterLogs && v != s.leader && Slot(s.term, v) in elections ==>
         elections[Slot(s.term, v)].order < elections[s].order
  }

  ghost predicate Apart(elections: Elections, s: Slot, s': Slot)
    requires s in elections && s' in elections
  {
    elections[s].order != elections[s'].order
  }

  ghost predicate OrdersOk(elections: Elections) {
    && (forall s {:trigger OrderOk(elections, s)} :: s in elections ==> OrderOk(elections, s))
    && (forall s, s' {:trigger Apart(elections, s, s')} :: s in elections && s' in elections && s != s' ==>
      Apart(elections, s, s'))
  }

  /** A winner never returns to candidacy in its term. */
  ghost predicate WinnerMovesOn(servers: Servers, s: Slot) {
    && s.leader in servers && 1 <= s.term <= servers[s.leader].node.term
    && (s.term == servers[s.leader].node.term ==> !servers[s.leader].node.role.Candidate?)
  }

  ghost predicate WinnersMoveOn(elections: Elections, servers: Servers) {
    forall s {:trigger WinnerMovesOn(servers, s)} :: s in elections ==> WinnerMovesOn(servers, s)
  }

  ghost predicate VotesOk(cfg: Config, ballots: set<Ballot>, elections: Elections) {
    SingleVotes(cfg, ballots, elections) && ElectionsOk(cfg, ballots, elections) && OrdersOk(elections)
  }

  ghost predicate Inv(cfg: Config, c: Cluster) {
    && ServersOk(cfg, c.hist.ballots, c.hist.elections, c.servers)
    && BallotsOk(cfg, c.hist.ballots, c.hist.elections, c.servers)
    && VotesOk(cfg, c.hist.ballots, c.hist.elections)
    && VoteMsgsOk(cfg, c.net.votes, c.servers)
    && VoteRepliesOk(c.net.votes, c.net.voteReplies, c.hist.ballots)
    && WinnersMoveOn(c.hist.elections, c.servers)
  }

  // ----- how one node's change bears on messages and winners -----

  /** The term never falls, and within a term candidacy is not resumed nor its log changed. */
  ghost predicate Advances(n: NodeState, n': NodeState) {
    && n.term <= n'.term
    && (n'.term == n.term && n'.role.Candidate? ==> n.role.Candidate? && n'.log == n.log)
  }

  lemma AdvanceMessages(cfg: Config, votes: set<VoteMsg>, servers: Servers, i: NodeId, s: Server)
    requires VoteMsgsOk(cfg, votes, servers)
    requires i in servers && Advances(servers[i].node, s.node)
    ensures VoteMsgsOk(cfg, votes, servers[i := s])
  {
    forall m | m in votes ensures VoteMsgOk(cfg, servers[i := s], m) {
      assert VoteMsgOk(cfg, servers, m);
    }
  }

  lemma AdvanceWinners(elections: Elections, servers: Servers, i: NodeId, s: Server)
    requires WinnersMoveOn(elections, servers)
    requires i in servers && Advances(servers[i].node, s.node)
    ensures WinnersMoveOn(elections, servers[i := s])
  {
    forall w | w in elections ensures WinnerMovesOn(servers[i := s], w) {
      assert WinnerMovesOn(servers, w);
    }
  }

  // ----- actions that cast no vote and win no election -----

  /** A term may be adopted, a role given up, and a leader that steps down may drop its vote. */
  ghost predicate Quiet(cfg: Config, n: NodeState, n': NodeState) {
    && Advances(n, n')
    && (n'.term > n.term ==> n'.role.Follower?)
    && (n'.role.Leader? ==> n.role.Leader?)
    && (n'.term == n.term ==>
          || n'.votedFor == n.votedFor
          || (!cfg.keepVote && n.role.Leader? && n'.role.Follower?))
  }

  lemma QuietServers(cfg: Config, ballots: set<Ballot>, elections: Elections, servers: Servers, i: NodeId, s: Server)
    requires ServersOk(cfg, ballots, elections, servers)
    requires i in servers && Quiet(cfg, servers[i].node, s.node) && Shape(cfg, i, s) && CountedVotes(ballots, i, s)
    ensures ServersOk(cfg, ballots, elections, servers[i := s])
  {
    assert ServerOk(cfg, ballots, elections, i, servers[i]);
  }

  lemma QuietBallots(cfg: Config, ballots: set<Ballot>, elections: Elections, servers: Servers, i: NodeId, s: Server)
    requires ServersOk(cfg, ballots, elections, servers) && BallotsOk(cfg, ballots, elections, servers)
    requires i in servers && Quiet(cfg, servers[i].node, s.node) && Shape(cfg, i, s)
    ensures BallotsOk(cfg, ballots, elections, servers[i := s])
  {
    assert ServerOk(cfg, ballots, elections, i, servers[i]);
    forall b | b in ballots ensures BallotOk(cfg, elections, servers[i := s], b) {
      assert BallotOk(cfg, elections, servers, b);
    }
  }

  /** `c'` differs from `c` in one node, and not in votes, vote messages or elections. */
  ghost predicate OnlyNode(c: Cluster, c': Cluster, i: NodeId, s: Server) {
    && i in c.servers && c'.servers == c.servers[i := s]
    && c'.net.votes == c.net.votes && c'.net.voteReplies == c.net.voteReplies
    && c'.hist.ballots == c.hist.ballots && c'.hist.elections == c.hist.elections
  }

  lemma KeptByQuiet(cfg: Config, c: Cluster, c': Cluster, i: NodeId, s: Server)
    requires Inv(cfg, c) && OnlyNode(c, c', i, s)
    requires Quiet(cfg, c.servers[i].node, s.node) && Shape(cfg, i, s) && CountedVotes(c.hist.ballots, i, s)
    ensures Inv(cfg, c')
  {
    QuietServers(cfg, c.hist.ballots, c.hist.elections, c.servers, i, s);
    QuietBallots(cfg, c.hist.ballots, c.hist.elections, c.servers, i, s);
    AdvanceMessages(cfg, c.net.votes, c.servers, i, s);
    AdvanceWinners(c.hist.elections, c.servers, i, s);
  }

  lemma {:induction false} RepliesLeaveVote(t: Tally, rs: seq<RpcResult>)
    requires !t.deposed
    ensures var t' := ProcessReplies(t, rs);
      && t'.node.log == t.node.log && t'.node.commitIndex == t.node.commitIndex
      && t'.node.lastApplied == t.node.lastApplied && t'.node.applied == t.node.applied
      && (!t'.deposed ==> t'.node.role == t.node.role && t'.node.term == t.node.term &&
                          t'.node.votedFor == t.node.votedFor)
      && (t'.deposed ==> t'.node.role.Follower? && t'.node.term > t.node.term)
    decreases |rs|
  {
    if rs != [] {
      RepliesLeaveVote(t, rs[..|rs| - 1]);
    }
  }

  lemma FinishRoundIsQuiet(cfg: Config, n: NodeState, rs: seq<RpcResult>, timedOut: bool)
    ensures Quiet(cfg, n, FinishRound(n, rs, Quorum(cfg), timedOut, cfg.keepVote))
    ensures n.role.Leader? ==> FinishRound(n, rs, Quorum(cfg), timedOut, cfg.keepVote).role != Candidate
    ensures FinishRound(n, rs, Quorum(cfg), timedOut, cfg.keepVote).log == n.log
  {
    RepliesLeaveVote(Tally(n, 1, false), rs);
  }

  lemma KeptByEndRound(cfg: Config, c: Cluster, i: NodeId, rs: seq<AppendReplyMsg>, timedOut: bool)
    requires Inv(cfg, c) && Enabled(cfg, c, EndRound(i, rs, timedOut))
    ensures Inv(cfg, DoEndRound(cfg, c, i, rs, timedOut))
  {
    var n, c' := c.servers[i].node, DoEndRound(cfg, c, i, rs, timedOut);
    assert ServerOk(cfg, c.hist.ballots, c.hist.elections, i, c.servers[i]);
    FinishRoundIsQuiet(cfg, n, ResultsOf(rs), timedOut);
    KeptByQuiet(cfg, c, c', i, Server(c'.servers[i].node, Idle));
  }

  lemma HandleAppendIsQuiet(cfg: Config, n: NodeState, req: AppendRequest)
    ensures var n' := HandleAppendEntries(n, req).0;
      Quiet(cfg, n, n') && (n' == n || n'.role.Follower?)
  {
  }

  lemma KeptByHandleAppend(cfg: Config, c: Cluster, m: AppendMsg)
    requires Inv(cfg, c) && Enabled(cfg, c, HandleAppend(m))
    ensures Inv(cfg, DoHandleAppend(c, m))
  {
    var s, c' := c.servers[m.to], DoHandleAppend(c, m);
    assert ServerOk(cfg, c.hist.ballots, c.hist.elections, m.to, s);
    HandleAppendIsQuiet(cfg, s.node, m.req);
    KeptByQuiet(cfg, c, c', m.to, c'.servers[m.to]);
  }

  lemma KeptByLeaderWork(cfg: Config, c: Cluster, a: Action)
    requires a.SetIndices? || a.StartRound? || a.ProposeCommand?
    requires Inv(cfg, c) && Enabled(cfg, c, a)
    ensures Inv(cfg, Do(cfg, c, a))
  {
    var c' := Do(cfg, c, a);
    assert ServerOk(cfg, c.hist.ballots, c.hist.elections, a.id, c.servers[a.id]);
    KeptByQuiet(cfg, c, c', a.id, c'.servers[a.id]);
  }

  lemma KeptByCountVote(cfg: Config, c: Cluster, i: NodeId, r: VoteReplyMsg)
    requires Inv(cfg, c) && Enabled(cfg, c, CountVote(i, r))
    ensures Inv(cfg, DoCountVote(c, i, r))
  {
    var s, c' := c.servers[i], DoCountVote(c, i, r);
    assert ServerOk(cfg, c.hist.ballots, c.hist.elections, i, s);
    assert VoteReplyOk(c.net.votes, c.hist.ballots, r);
    assert VoteMsgOk(cfg, c.servers, r.msg);
    KeptByQuiet(cfg, c, c', i, c'.servers[i]);
  }

  /** A newer term, adopted on time. */
  lemma KeptByAdopt(cfg: Config, c: Cluster, i: NodeId)
    requires Inv(cfg, c) && Enabled(cfg, c, Adopt(i)) && Timely(c, Adopt(i))
    ensures Inv(cfg, DoAdopt(c, i))
  {
    var c' := DoAdopt(c, i);
    assert ServerOk(cfg, c.hist.ballots, c.hist.elections, i, c.servers[i]);
    KeptByQuiet(cfg, c, c', i, c'.servers[i]);
  }

  // ----- votes -----

  /** Casting a vote only adds to what is known of the other nodes. */
  lemma VoteServers(cfg: Config, ballots: set<Ballot>, b: Ballot, elections: Elections, servers: Servers, s: Server)
    requires ServersOk(cfg, ballots, elections, servers) && b.voter in servers
    requires ServerOk(cfg, ballots + {b}, elections, b.voter, s)
    ensures ServersOk(cfg, ballots + {b}, elections, servers[b.voter := s])
  {
    forall i | i in servers && i != b.voter ensures ServerOk(cfg, ballots + {b}, elections, i, servers[i]) {
      assert ServerOk(cfg, ballots, elections, i, servers[i]);
    }
  }

  lemma VoteReplies(votes: set<VoteMsg>, replies: set<VoteReplyMsg>, ballots: set<Ballot>, b: Ballot)
    requires VoteRepliesOk(votes, replies, ballots)
    ensures VoteRepliesOk(votes, replies, ballots + {b})
  {
    forall r | r in replies ensures VoteReplyOk(votes, ballots + {b}, r) {
      assert VoteReplyOk(votes, ballots, r);
    }
  }

  lemma VoteElections(cfg: Config, ballots: set<Ballot>, b: Ballot, elections: Elections)
    requires ElectionsOk(cfg, ballots, elections)
    ensures ElectionsOk(cfg, ballots + {b}, elections)
  {
    forall s | s in elections ensures ElectionOk(cfg, ballots + {b}, s, elections[s]) {
      assert ElectionOk(cfg, ballots, s, elections[s]);
    }
  }

  /** The voter's vote is free, or already this one. */
  ghost predicate MayVote(n: NodeState, n': NodeState, b: Ballot) {
    && n'.term == b.term && n'.votedFor == Some(b.candidate) && 1 <= b.term
    && (|| n.term < b.term
        || (n.term == b.term && (n.votedFor.None? || n.votedFor == Some(b.candidate)) && n'.role == n.role))
  }

  lemma VoteBallots(cfg: Config, ballots: set<Ballot>, b: Ballot, elections: Elections, servers: Servers, s: Server)
    requires BallotsOk(cfg, ballots, elections, servers) && SingleVotes(cfg, ballots, elections)
    requires b.voter in servers && MayVote(servers[b.voter].node, s.node, b)
    ensures BallotsOk(cfg, ballots + {b}, elections, servers[b.voter := s])
    ensures SingleVotes(cfg, ballots + {b}, elections)
  {
    forall a | a in ballots
      ensures BallotOk(cfg, elections, servers[b.voter := s], a)
      ensures Conflicting(a, b) ==> SplitVote(cfg, elections, a, b) && SplitVote(cfg, elections, b, a)
    {
      assert BallotOk(cfg, elections, servers, a);
    }
  }

  lemma KeptByVote(cfg: Config, c: Cluster, c': Cluster, b: Ballot, s: Server)
    requires Inv(cfg, c) && b.voter in c.servers
    requires MayVote(c.servers[b.voter].node, s.node, b) && Advances(c.servers[b.voter].node, s.node)
    requires ServerOk(cfg, c.hist.ballots + {b}, c.hist.elections, b.voter, s)
    requires c' == c.(servers := c.servers[b.voter := s], hist := c.hist.(ballots := c.hist.ballots + {b}))
    ensures Inv(cfg, c')
  {
    VoteServers(cfg, c.hist.ballots, b, c.hist.elections, c.servers, s);
    VoteReplies(c.net.votes, c.net.voteReplies, c.hist.ballots, b);
    VoteElections(cfg, c.hist.ballots, b, c.hist.elections);
    VoteBallots(cfg, c.hist.ballots, b, c.hist.elections, c.servers, s);
    AdvanceMessages(cfg, c.net.votes, c.servers, b.voter, s);
    AdvanceWinners(c.hist.elections, c.servers, b.voter, s);
  }

  lemma KeptByStartElection(cfg: Config, c: Cluster, i: NodeId)
    requires Inv(cfg, c) && Enabled(cfg, c, StartElection(i))
    ensures Inv(cfg, DoStartElection(c, i))
  {
    var c' := DoStartElection(c, i);
    var s := c'.servers[i];
    KeptByVote(cfg, c, c', Ballot(i, s.node.term, i, s.node.log), s);
  }

  lemma KeptByAskVote(cfg: Config, c: Cluster, i: NodeId, to: NodeId, req: VoteRequest)
    requires Inv(cfg, c) && Enabled(cfg, c, AskVote(i, to, req))
    ensures Inv(cfg, Do(cfg, c, AskVote(i, to, req)))
  {
    var c' := Do(cfg, c, AskVote(i, to, req));
    assert ServerOk(cfg, c.hist.ballots, c.hist.elections, i, c.servers[i]);
    forall r | r in c'.net.voteReplies ensures VoteReplyOk(c'.net.votes, c'.hist.ballots, r) {
      assert VoteReplyOk(c.net.votes, c.hist.ballots, r);
    }
  }

  lemma RequestVoteFacts(cfg: Config, n: NodeState, req: VoteRequest, i: NodeId)
    requires req.term >= 1
    ensures var (n', reply) := HandleRequestVote(n, req);
      && Advances(n, n') && n'.log == n.log
      && ((n'.role == n.role && n'.term == n.term) || n'.role.Follower?)
      && (reply.granted ==>
            MayVote(n, n', Ballot(i, req.term, req.candidate, n.log)) && UpToDate(req.lastTerm, req.lastIndex, n.log))
      && (!reply.granted ==> Quiet(cfg, n, n'))
      && (n'.votedFor == n.votedFor || n.votedFor.None? || n'.role.Follower?)
  {
  }

  /** A node keeps its standing when it answers a vote request. */
  lemma AnsweringServer(cfg: Config, ballots: set<Ballot>, more: set<Ballot>, elections: Elections, i: NodeId,
                        s: Server, s': Server)
    requires ServerOk(cfg, ballots, elections, i, s) && ballots <= more
    requires s'.thread == s.thread && Advances(s.node, s'.node) && s'.node.log == s.node.log
    requires (s'.node.role == s.node.role && s'.node.term == s.node.term) || s'.node.role.Follower?
    requires s'.node.votedFor == s.node.votedFor || s.node.votedFor.None? || s'.node.role.Follower?
    ensures ServerOk(cfg, more, elections, i, s')
  {
  }

  lemma KeptByReply(cfg: Config, c: Cluster, r: VoteReplyMsg)
    requires Inv(cfg, c) && VoteReplyOk(c.net.votes, c.hist.ballots, r)
    ensures Inv(cfg, c.(net := c.net.(voteReplies := c.net.voteReplies + {r})))
  {
  }

  lemma KeptByHandleVote(cfg: Config, c: Cluster, m: VoteMsg)
    requires Inv(cfg, c) && Enabled(cfg, c, HandleVote(m))
    ensures Inv(cfg, DoHandleVote(c, m))
  {
    var s, c' := c.servers[m.to], DoHandleVote(c, m);
    var s', c0 := c'.servers[m.to], c'.(net := c.net);
    var b := Ballot(m.to, m.req.term, m.req.candidate, s.node.log);
    assert VoteMsgOk(cfg, c.servers, m);
    assert ServerOk(cfg, c.hist.ballots, c.hist.elections, m.to, s);
    RequestVoteFacts(cfg, s.node, m.req, m.to);
    AnsweringServer(cfg, c.hist.ballots, c0.hist.ballots, c.hist.elections, m.to, s, s');
    if HandleRequestVote(s.node, m.req).1.granted {
      KeptByVote(cfg, c, c0, b, s');
    } else {
      KeptByQuiet(cfg, c, c0, m.to, s');
    }
    KeptByReply(cfg, c0, VoteReplyMsg(m, HandleRequestVote(s.node, m.req).1, s.node.log));
  }

  // ----- winning -----

  ghost predicate CanWin(cfg: Config, ballots: set<Ballot>, elections: Elections, i: NodeId, s: Server) {
    && s.node.role.Candidate? && s.thread.Campaign? && ServerOk(cfg, ballots, elections, i, s)
    && 1 + |s.thread.votes| >= Quorum(cfg)
    && i in cfg.members && Slot(s.node.term, i) !in elections
  }

  ghost function WonBy(elections: Elections, i: NodeId, s: Server): Election
    requires s.thread.Campaign?
  {
    Election(|elections|, s.node.log, s.thread.votes[i := s.node.log])
  }

  /** A candidate with a majority wins an election as it should be. */
  lemma WinElections(cfg: Config, ballots: set<Ballot>, elections: Elections, i: NodeId, s: Server, e: Election)
    requires ElectionsOk(cfg, ballots, elections) && ServerOk(cfg, ballots, elections, i, s) && i in cfg.members
    requires s.node.role.Candidate? && s.thread.Campaign? && 1 + |s.thread.votes| >= Quorum(cfg)
    requires e == Election(e.order, s.node.log, s.thread.votes[i := s.node.log])
    ensures ElectionsOk(cfg, ballots, elections[Slot(s.node.term, i) := e])
  {
    assert e.voterLogs.Keys == s.thread.votes.Keys + {i};
    assert |s.thread.votes.Keys + {i}| == |s.thread.votes| + 1;
  }

  /** A candidate has voted for nobody else in its term. */
  lemma CandidateVotedOnlyForItself(cfg: Config, ballots: set<Ballot>, elections: Elections, servers: Servers,
                                    b: Ballot)
    requires BallotsOk(cfg, ballots, elections, servers) && ServersOk(cfg, ballots, elections, servers)
    requires b in ballots && b.voter in servers
    requires !servers[b.voter].node.role.Follower? && servers[b.voter].node.term == b.term
    ensures b.candidate == b.voter
  {
    assert BallotOk(cfg, elections, servers, b);
    assert ServerOk(cfg, ballots, elections, b.voter, servers[b.voter]);
  }

  /** The winner of a term has voted for no earlier winner of it. */
  lemma NewWinnerIsNoVoter(cfg: Config, ballots: set<Ballot>, elections: Elections, servers: Servers, i: NodeId,
                           s: Slot)
    requires ElectionsOk(cfg, ballots, elections)
    requires BallotsOk(cfg, ballots, elections, servers) && ServersOk(cfg, ballots, elections, servers)
    requires i in servers && servers[i].node.role.Candidate?
    requires s in elections && s.leader != i && s.term == servers[i].node.term
    ensures i !in elections[s].voterLogs
  {
    if i in elections[s].voterLogs {
      assert ElectionOk(cfg, ballots, s, elections[s]);
      CandidateVotedOnlyForItself(cfg, ballots, elections, servers, Ballot(i, s.term, s.leader,
        elections[s].voterLogs[i]));
    }
  }

  lemma WinOrders(elections: Elections, slot: Slot, e: Election)
    requires OrdersOk(elections) && slot !in elections && e.order == |elections|
    requires forall s :: s in elections && s.leader != slot.leader && s.term == slot.term ==>
               slot.leader !in elections[s].voterLogs
    ensures OrdersOk(elections[slot := e])
  {
    var elections' := elections[slot := e];
    assert elections'.Keys == elections.Keys + {slot};
    assert |elections'.Keys| == |elections.Keys| + 1;
    forall s | s in elections ensures elections[s].order < e.order {
      assert OrderOk(elections, s);
    }
    forall s | s in elections' ensures OrderOk(elections', s) {
      if s != slot {
        assert OrderOk(elections, s);
      }
    }
    forall s, s' | s in elections' && s' in elections' && s != s' ensures Apart(elections', s, s') {
      assert s != slot && s' != slot ==> Apart(elections, s, s');
    }
  }

  lemma WinVotes(cfg: Config, ballots: set<Ballot>, elections: Elections, servers: Servers, i: NodeId, e: Election)
    requires ServersOk(cfg, ballots, elections, servers) && BallotsOk(cfg, ballots, elections, servers)
    requires SingleVotes(cfg, ballots, elections)
    requires i in servers && CanWin(cfg, ballots, elections, i, servers[i])
    ensures var s, elections' := Server(servers[i].node.(role := Leader), Won),
      elections[Slot(servers[i].node.term, i) := e];
      && ServersOk(cfg, ballots, elections', servers[i := s])
      && BallotsOk(cfg, ballots, elections', servers[i := s])
      && SingleVotes(cfg, ballots, elections')
  {
    var s, elections' := Server(servers[i].node.(role := Leader), Won), elections[Slot(servers[i].node.term, i) := e];
    forall j | j in servers && j != i ensures ServerOk(cfg, ballots, elections', j, servers[j]) {
      assert ServerOk(cfg, ballots, elections, j, servers[j]);
    }
    forall b | b in ballots ensures BallotOk(cfg, elections', servers[i := s], b) {
      assert BallotOk(cfg, elections, servers, b);
    }
    forall a, b | a in ballots && b in ballots && Conflicting(a, b) ensures SplitVote(cfg, elections', a, b) {
      assert SplitVote(cfg, elections, a, b);
    }
  }

  lemma WinWinners(elections: Elections, servers: Servers, i: NodeId, s: Server, e: Election)
    requires WinnersMoveOn(elections, servers) && i in servers
    requires Advances(servers[i].node, s.node) && s.node.role.Leader? && 1 <= s.node.term
    ensures WinnersMoveOn(elections[Slot(s.node.term, i) := e], servers[i := s])
  {
    AdvanceWinners(elections, servers, i, s);
  }

  lemma KeptByWin(cfg: Config, c: Cluster, i: NodeId)
    requires Inv(cfg, c) && i in c.servers && CanWin(cfg, c.hist.ballots, c.hist.elections, i, c.servers[i])
    ensures Inv(cfg, DoEndElection(cfg, c, i))
  {
    var s, c' := c.servers[i], DoEndElection(cfg, c, i);
    var e := WonBy(c.hist.elections, i, s);
    assert c'.servers == c.servers[i := Server(s.node.(role := Leader), Won)];
    assert c'.hist.elections == c.hist.elections[Slot(s.node.term, i) := e];
    WinElections(cfg, c.hist.ballots, c.hist.elections, i, s, e);
    forall v | v in c.hist.elections && v.leader != i && v.term == s.node.term
      ensures i !in c.hist.elections[v].voterLogs
    {
      NewWinnerIsNoVoter(cfg, c.hist.ballots, c.hist.elections, c.servers, i, v);
    }
    WinOrders(c.hist.elections, Slot(s.node.term, i), e);
    WinVotes(cfg, c.hist.ballots, c.hist.elections, c.servers, i, e);
    WinWinners(c.hist.elections, c.servers, i, c'.servers[i], e);
    AdvanceMessages(cfg, c.net.votes, c.servers, i, c'.servers[i]);
  }

  lemma KeptByEndElection(cfg: Config, c: Cluster, i: NodeId)
    requires Inv(cfg, c) && Enabled(cfg, c, EndElection(i))
    ensures Inv(cfg, DoEndElection(cfg, c, i))
  {
    var s, c' := c.servers[i], DoEndElection(cfg, c, i);
    assert ServerOk(cfg, c.hist.ballots, c.hist.elections, i, s);
    if c'.servers[i].node.role.Leader? {
      assert Slot(s.node.term, i) in c.hist.elections ==> WinnerMovesOn(c.servers, Slot(s.node.term, i));
      KeptByWin(cfg, c, i);
    } else {
      KeptByQuiet(cfg, c, c', i, c'.servers[i]);
    }
  }

  lemma KeptByStep(cfg: Config, c: Cluster, a: Action)
    requires Inv(cfg, c) && Timely(c, a)
    ensures Inv(cfg, Step(cfg, c, a))
  {
    if Enabled(cfg, c, a) {
      match a {
        case StartElection(i) => KeptByStartElection(cfg, c, i);
        case AskVote(i, to, req) => KeptByAskVote(cfg, c, i, to, req);
        case HandleVote(m) => KeptByHandleVote(cfg, c, m);
        case CountVote(i, r) => KeptByCountVote(cfg, c, i, r);
        case Adopt(i) => KeptByAdopt(cfg, c, i);
        case EndElection(i) => KeptByEndElection(cfg, c, i);
        case HandleAppend(m) => KeptByHandleAppend(cfg, c, m);
        case EndRound(i, rs, timedOut) => KeptByEndRound(cfg, c, i, rs, timedOut);
        case _ => KeptByLeaderWork(cfg, c, a);
      }
    }
  }

  /** The election invariant holds after every run that adopts terms on time, whether or not a
      deposed leader keeps its vote. */
  lemma {:induction false} Always(cfg: Config, run: seq<Action>)
    requires Prompt(cfg, run)
    ensures Inv(cfg, After(cfg, run))
    decreases |run|
  {
    if run != [] {
      Always(cfg, run[..|run| - 1]);
      KeptByStep(cfg, After(cfg, run[..|run| - 1]), run[|run| - 1]);
    }
  }

  // ----- how many leaders a term can have -----

  ghost function LeadersOf(elections: Elections, t: Term): set<NodeId> {
    set s | s in elections && s.term == t :: s.leader
  }

  lemma QuorumsMeet(cfg: Config, a: set<NodeId>, b: set<NodeId>) returns (v: NodeId)
    requires a <= cfg.members && b <= cfg.members && |a| >= Quorum(cfg) && |b| >= Quorum(cfg)
    ensures v in a && v in b
  {
    assert |a + b| + |a * b| == |a| + |b|;
    SubsetSize(a + b, cfg.members);
    assert a * b != {};
    v :| v in a * b;
  }

  lemma SubsetSize(a: set<NodeId>, b: set<NodeId>)
    requires a <= b
    ensures |a| <= |b|
    ensures |a| == |b| ==> a == b
  {
    assert b == a + (b - a);
  }

  lemma {:induction false} PartOf(s: set<NodeId>, n: nat) returns (part: set<NodeId>)
    requires n <= |s|
    ensures part <= s && |part| == n
    decreases n
  {
    if n == 0 {
      part := {};
    } else {
      var x :| x in s;
      assert |s - {x}| == |s| - 1;
      part := PartOf(s - {x}, n - 1);
      part := part + {x};
    }
  }

  /** `s1` and `s2` are elections of one term, won in this order. */
  ghost predicate Rivals(elections: Elections, s1: Slot, s2: Slot) {
    && s1 in elections && s2 in elections && s1.term == s2.term
    && elections[s1].order < elections[s2].order
  }

  /** A node elected after another in the same term did not vote for it. */
  lemma LaterLeaderIsNoVoter(elections: Elections, s1: Slot, s2: Slot)
    requires OrdersOk(elections) && Rivals(elections, s1, s2)
    ensures s2.leader !in elections[s1].voterLogs
  {
    assert OrderOk(elections, s1);
    assert s1.leader != s2.leader;
  }

  /** Two leaders of one term share exactly one voter: the earlier of them, whose vote was reset. */
  lemma SharedVoter(cfg: Config, ballots: set<Ballot>, elections: Elections, s1: Slot, s2: Slot)
    requires VotesOk(cfg, ballots, elections) && Rivals(elections, s1, s2)
    ensures elections[s1].voterLogs.Keys * elections[s2].voterLogs.Keys == {s1.leader}
    ensures !cfg.keepVote
  {
    var e1, e2 := elections[s1], elections[s2];
    assert ElectionOk(cfg, ballots, s1, e1) && ElectionOk(cfg, ballots, s2, e2);
    LaterLeaderIsNoVoter(elections, s1, s2);
    forall v | v in e1.voterLogs && v in e2.voterLogs ensures v == s1.leader && !cfg.keepVote {
      var a, b := Ballot(v, s1.term, s1.leader, e1.voterLogs[v]), Ballot(v, s2.term, s2.leader, e2.voterLogs[v]);
      assert s1.leader != s2.leader;
      assert Conflicting(a, b) && SplitVote(cfg, elections, a, b);
    }
    var v := QuorumsMeet(cfg, e1.voterLogs.Keys, e2.voterLogs.Keys);
  }

  lemma MajoritiesSharingOne(members: set<NodeId>, a: set<NodeId>, b: set<NodeId>, v: NodeId)
    requires a <= members && b <= members && a * b == {v}
    requires |a| >= Majority(|members|) && |b| >= Majority(|members|)
    ensures a + b == members && |members| % 2 == 1
  {
    assert |a + b| + |a * b| == |a| + |b|;
    SubsetSize(a + b, members);
  }

  lemma TwoMembers(members: set<NodeId>, a: NodeId, b: NodeId)
    requires a in members && b in members && a != b
    ensures |members| >= 2
  {
    SubsetSize({a, b}, members);
  }

  lemma AtMostTwoElements(s: set<NodeId>, a: NodeId, b: NodeId)
    requires s <= {a, b}
    ensures |s| <= 2 && (a == b ==> |s| <= 1)
  {
    SubsetSize(s, {a, b});
  }

  /** Two leaders in a term take every node's vote, which an even cluster cannot give. */
  lemma TwoLeadersNeedAll(cfg: Config, ballots: set<Ballot>, elections: Elections, s1: Slot, s2: Slot)
    requires VotesOk(cfg, ballots, elections) && Rivals(elections, s1, s2)
    ensures elections[s1].voterLogs.Keys + elections[s2].voterLogs.Keys == cfg.members
    ensures |cfg.members| % 2 == 1 && |cfg.members| >= 3 && !cfg.keepVote
  {
    assert ElectionOk(cfg, ballots, s1, elections[s1]) && ElectionOk(cfg, ballots, s2, elections[s2]);
    SharedVoter(cfg, ballots, elections, s1, s2);
    MajoritiesSharingOne(cfg.members, elections[s1].voterLogs.Keys, elections[s2].voterLogs.Keys, s1.leader);
    assert s1.leader != s2.leader;
    TwoMembers(cfg.members, s1.leader, s2.leader);
  }

  /** No term has three leaders. */
  lemma AtMostTwo(cfg: Config, ballots: set<Ballot>, elections: Elections, s1: Slot, s2: Slot, s3: Slot)
    requires VotesOk(cfg, ballots, elections) && Rivals(elections, s1, s2)
    requires s3 in elections && s3.term == s1.term
    ensures s3 == s1 || s3 == s2
  {
    var o1, o2, o3 := elections[s1].order, elections[s2].order, elections[s3].order;
    if s3 != s1 && s3 != s2 {
      var x := if o3 < o1 then s3 else s1;
      var y := if o3 < o1 then s1 else if o3 < o2 then s3 else s2;
      var z := if o3 < o2 then s2 else s3;
      assert Apart(elections, s1, s3) && Apart(elections, s2, s3);
      assert ElectionOk(cfg, ballots, z, elections[z]);
      LaterLeaderIsNoVoter(elections, x, z);
      LaterLeaderIsNoVoter(elections, y, z);
      TwoLeadersNeedAll(cfg, ballots, elections, x, y);
      assert false;
    }
  }

  /** A cluster in which the program elects at most one leader per term: an even number of
      nodes, or a single one; any, if a deposed leader keeps its vote. */
  predicate Steady(cfg: Config) {
    cfg.keepVote || |cfg.members| % 2 == 0 || |cfg.members| == 1
  }

  ghost predicate UniqueLeaders(elections: Elections) {
    forall s1, s2 :: s1 in elections && s2 in elections && s1.term == s2.term ==> s1 == s2
  }

  lemma SteadyMeansUnique(cfg: Config, c: Cluster)
    requires Inv(cfg, c) && Steady(cfg)
    ensures UniqueLeaders(c.hist.elections)
  {
    var elections := c.hist.elections;
    forall s1, s2 | s1 in elections && s2 in elections && s1.term == s2.term ensures s1 == s2 {
      if s1 != s2 {
        assert Apart(elections, s1, s2);
        if elections[s1].order < elections[s2].order {
          TwoLeadersNeedAll(cfg, c.hist.ballots, elections, s1, s2);
        } else {
          TwoLeadersNeedAll(cfg, c.hist.ballots, elections, s2, s1);
        }
        assert false;
      }
    }
  }

  /** A run that adopts terms on time and in which no term has had two leaders. */
  ghost predicate Peaceful(cfg: Config, run: seq<Action>) {
    Prompt(cfg, run) && UniqueLeaders(After(cfg, run).hist.elections)
  }

  lemma SteadyIsPeaceful(cfg: Config, run: seq<Action>)
    requires Steady(cfg) && Prompt(cfg, run)
    ensures Peaceful(cfg, run)
  {
    Always(cfg, run);
    SteadyMeansUnique(cfg, After(cfg, run));
  }

  lemma ElectionsStay(cfg: Config, c: Cluster, a: Action)
    ensures c.hist.elections.Keys <= Step(cfg, c, a).hist.elections.Keys
  {
  }

  lemma {:induction false} PeacefulBefore(cfg: Config, run: seq<Action>, more: seq<Action>)
    requires Peaceful(cfg, run + more)
    ensures Peaceful(cfg, run)
    decreases |more|
  {
    if more == [] {
      assert run + more == run;
    } else {
      var fewer, all := more[..|more| - 1], run + more;
      assert all[..|all| - 1] == run + fewer;
      ElectionsStay(cfg, After(cfg, run + fewer), all[|all| - 1]);
      FewerUnique(After(cfg, run + fewer).hist.elections, After(cfg, all).hist.elections);
      assert run + fewer + [more[|more| - 1]] == all;
      PromptBefore(cfg, run + fewer, [more[|more| - 1]]);
      PeacefulBefore(cfg, run, fewer);
    }
  }

  lemma FewerUnique(elections: Elections, more: Elections)
    requires elections.Keys <= more.Keys && UniqueLeaders(more)
    ensures UniqueLeaders(elections)
  {
  }

  /** Election safety, as the program keeps it: after every run that adopts terms on time, a term has had at most two
      leaders, and two only in an odd cluster of three or more whose deposed leaders drop
      their vote, the second of them with the vote of the first. */
  lemma LeadersPerTerm(cfg: Config, run: seq<Action>, t: Term)
    requires Prompt(cfg, run)
    ensures var elections := After(cfg, run).hist.elections;
      && |LeadersOf(elections, t)| <= 2
      && (Steady(cfg) ==> |LeadersOf(elections, t)| <= 1)
      && forall s1, s2 :: Rivals(elections, s1, s2) ==> s1.leader in elections[s2].voterLogs
  {
    Always(cfg, run);
    var c := After(cfg, run);
    var elections := c.hist.elections;
    forall s1, s2 | Rivals(elections, s1, s2) ensures s1.leader in elections[s2].voterLogs {
      SharedVoter(cfg, c.hist.ballots, elections, s1, s2);
      assert s1.leader in elections[s1].voterLogs.Keys * elections[s2].voterLogs.Keys;
    }
    if Steady(cfg) {
      SteadyMeansUnique(cfg, c);
    }
    CountLeaders(cfg, c.hist.ballots, elections, t);
  }

  lemma OnlyTheseLeaders(cfg: Config, ballots: set<Ballot>, elections: Elections, s1: Slot, s2: Slot)
    requires VotesOk(cfg, ballots, elections) && s1 in elections && s2 in elections && s1.term == s2.term && s1 != s2
    ensures LeadersOf(elections, s1.term) <= {s1.leader, s2.leader}
  {
    assert Apart(elections, s1, s2);
    var x, y := if elections[s1].order < elections[s2].order then s1 else s2,
      if elections[s1].order < elections[s2].order then s2 else s1;
    forall l | l in LeadersOf(elections, s1.term) ensures l == s1.leader || l == s2.leader {
      AtMostTwo(cfg, ballots, elections, x, y, Slot(s1.term, l));
    }
  }

  lemma CountLeaders(cfg: Config, ballots: set<Ballot>, elections: Elections, t: Term)
    requires VotesOk(cfg, ballots, elections)
    ensures |LeadersOf(elections, t)| <= 2
    ensures UniqueLeaders(elections) ==> |LeadersOf(elections, t)| <= 1
  {
    var leaders := LeadersOf(elections, t);
    if leaders != {} {
      var a :| a in leaders;
      assert Slot(t, a) in elections;
      if b :| b in leaders && b != a {
        assert Slot(t, b) in elections;
        OnlyTheseLeaders(cfg, ballots, elections, Slot(t, a), Slot(t, b));
        AtMostTwoElements(leaders, a, b);
      } else {
        AtMostTwoElements(leaders, a, a);
      }
    }
  }
}
