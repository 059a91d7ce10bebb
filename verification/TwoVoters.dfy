/** Two nodes that keep their votes, in every run, however late newer terms are adopted: each
    leader needs the other's vote, and no node votes against itself in a term it stood in. */
module TwoVoters {
  import opened RaftTypes
  import opened RaftSteps
  import opened Cluster
  import opened ElectionSafety
  import opened AnyRun
  import opened SmallClusters

  /** A node's own vote is for good. */
  ghost predicate OwnVoteOk(servers: Servers, b: Ballot) {
    b.voter in servers && (b.candidate == b.voter ==>
      var n := servers[b.voter].node;
      b.term < n.term || (b.term == n.term && n.votedFor == Some(b.voter)))
  }

  ghost predicate OwnVotesOk(ballots: set<Ballot>, servers: Servers) {
    forall b {:trigger OwnVoteOk(servers, b)} :: b in ballots ==> OwnVoteOk(servers, b)
  }

  /** No two nodes granted each other their votes in candidacies of one term. */
  ghost predicate OneWay(replies: set<VoteReplyMsg>, x: NodeId, y: NodeId, t: Term) {
    !(Granted(replies, x, y, t) && Granted(replies, y, x, t))
  }

  ghost predicate OneWays(replies: set<VoteReplyMsg>) {
    forall x, y, t {:trigger OneWay(replies, x, y, t)} :: OneWay(replies, x, y, t)
  }

  /** A leader was granted the vote of the other node. */
  ghost predicate ElectedOk(cfg: Config, replies: set<VoteReplyMsg>, s: Slot) {
    s.leader in cfg.members && forall y :: y in cfg.members && y != s.leader ==> Granted(replies, s.leader, y, s.term)
  }

  ghost predicate ElectedsOk(cfg: Config, replies: set<VoteReplyMsg>, elections: Elections) {
    forall s {:trigger ElectedOk(cfg, replies, s)} :: s in elections ==> ElectedOk(cfg, replies, s)
  }

  ghost predicate Faithful(cfg: Config, c: Cluster) {
    && OwnVotesOk(c.hist.ballots, c.servers) && OneWays(c.net.voteReplies)
    && CountsOk(c.net.voteReplies, c.servers) && ElectedsOk(cfg, c.net.voteReplies, c.hist.elections)
  }

  /** A vote for oneself outlives the step: the term rises, or the vote stays, or the node had
      not yet stood in the new term. */
  ghost predicate KeepsOwn(i: NodeId, s: Server, s': Server) {
    || s.node.term < s'.node.term
    || (s.node.term == s'.node.term && (s.node.votedFor == Some(i) ==> s'.node.votedFor == Some(i)))
    || Level(s) < s'.node.term
  }

  lemma OwnVotesAfter(ballots: set<Ballot>, servers: Servers, i: NodeId, s: Server)
    requires OwnVotesOk(ballots, servers) && OwnBallotsOk(ballots, servers) && i in servers
    requires KeepsOwn(i, servers[i], s)
    ensures OwnVotesOk(ballots, servers[i := s])
  {
    forall b | b in ballots ensures OwnVoteOk(servers[i := s], b) {
      assert OwnVoteOk(servers, b) && OwnBallotOk(servers, b);
    }
  }

  /** Node i changes; no vote is cast and no election won. */
  lemma FaithfulAfter(cfg: Config, c: Cluster, c': Cluster, i: NodeId, s: Server)
    requires Base(cfg, c) && Faithful(cfg, c) && NodeMoves(c, c', i, s)
    requires c'.hist.ballots == c.hist.ballots && c'.hist.elections == c.hist.elections
    requires KeepsOwn(i, c.servers[i], s) && CountOk(c.net.voteReplies, i, s)
    ensures Faithful(cfg, c')
  {
    OwnVotesAfter(c.hist.ballots, c.servers, i, s);
    CountsAfter(c.net.voteReplies, c.net.voteReplies, c.servers, i, s);
  }

  ghost predicate Loyal(cfg: Config, c: Cluster) {
    |cfg.members| <= 2 && cfg.keepVote && Base(cfg, c) && Faithful(cfg, c)
  }

  lemma LoyalFacts(cfg: Config, c: Cluster, i: NodeId)
    requires Loyal(cfg, c) && i in c.servers
    ensures ServerOk(cfg, c.hist.ballots, c.hist.elections, i, c.servers[i])
    ensures LocalOk(cfg, c.net.appends, i, c.servers[i]) && CountOk(c.net.voteReplies, i, c.servers[i])
  {
    Facts(cfg, c, i);
  }

  lemma FaithfulByCountVote(cfg: Config, c: Cluster, i: NodeId, r: VoteReplyMsg)
    requires Loyal(cfg, c) && Enabled(cfg, c, CountVote(i, r))
    ensures Faithful(cfg, DoCountVote(c, i, r))
  {
    var c' := DoCountVote(c, i, r);
    LoyalFacts(cfg, c, i);
    assert VoteReplyOk(c.net.votes, c.hist.ballots, r);
    assert CallOk(cfg, c.hist.ballots, c.servers, r.msg);
    if r.reply.granted && c.servers[i].node.role.Candidate? {
      assert GrantsIn(r, i, r.msg.to, c.servers[i].node.term);
    }
    FaithfulAfter(cfg, c, c', i, c'.servers[i]);
  }

  lemma FaithfulByPlain(cfg: Config, c: Cluster, a: Action)
    requires Loyal(cfg, c) && Enabled(cfg, c, a)
    requires a.Adopt? || a.SetIndices? || a.StartRound? || a.ProposeCommand?
    ensures Faithful(cfg, Do(cfg, c, a))
  {
    var c' := Do(cfg, c, a);
    LoyalFacts(cfg, c, a.id);
    FaithfulAfter(cfg, c, c', a.id, c'.servers[a.id]);
  }

  lemma FaithfulByHandleAppend(cfg: Config, c: Cluster, m: AppendMsg)
    requires Loyal(cfg, c) && Enabled(cfg, c, HandleAppend(m))
    ensures Faithful(cfg, DoHandleAppend(c, m))
  {
    var c' := DoHandleAppend(c, m);
    LoyalFacts(cfg, c, m.to);
    HandleAppendIsQuiet(cfg, c.servers[m.to].node, m.req);
    FaithfulAfter(cfg, c, c', m.to, c'.servers[m.to]);
  }

  lemma FaithfulByEndRound(cfg: Config, c: Cluster, i: NodeId, rs: seq<AppendReplyMsg>, timedOut: bool)
    requires Loyal(cfg, c) && Enabled(cfg, c, EndRound(i, rs, timedOut))
    ensures Faithful(cfg, DoEndRound(cfg, c, i, rs, timedOut))
  {
    var c' := DoEndRound(cfg, c, i, rs, timedOut);
    LoyalFacts(cfg, c, i);
    FinishRoundIsQuiet(cfg, c.servers[i].node, ResultsOf(rs), timedOut);
    FaithfulAfter(cfg, c, c', i, c'.servers[i]);
  }

  lemma FaithfulByEndElection(cfg: Config, c: Cluster, i: NodeId)
    requires Loyal(cfg, c) && Enabled(cfg, c, EndElection(i))
    ensures Faithful(cfg, DoEndElection(cfg, c, i))
  {
    var s, c' := c.servers[i], DoEndElection(cfg, c, i);
    LoyalFacts(cfg, c, i);
    OwnVotesAfter(c.hist.ballots, c.servers, i, c'.servers[i]);
    CountsAfter(c.net.voteReplies, c.net.voteReplies, c.servers, i, c'.servers[i]);
    if c'.servers[i].node.role.Leader? {
      forall y | y in cfg.members && y != i ensures Granted(c.net.voteReplies, i, y, s.node.term) {
        OtherVoted(cfg, s.thread.votes, i, y);
      }
      assert ElectedOk(cfg, c.net.voteReplies, Slot(s.node.term, i));
    }
  }

  lemma FaithfulByStartElection(cfg: Config, c: Cluster, i: NodeId)
    requires Loyal(cfg, c) && Enabled(cfg, c, StartElection(i))
    ensures Faithful(cfg, DoStartElection(c, i))
  {
    var c' := DoStartElection(c, i);
    LoyalFacts(cfg, c, i);
    OwnVotesAfter(c.hist.ballots, c.servers, i, c'.servers[i]);
    CountsAfter(c.net.voteReplies, c.net.voteReplies, c.servers, i, c'.servers[i]);
    forall b | b in c'.hist.ballots ensures OwnVoteOk(c'.servers, b) {
      assert b in c.hist.ballots ==> OwnVoteOk(c.servers[i := c'.servers[i]], b);
    }
  }

  /** A voter that stood in a term grants nobody else its vote in it. */
  lemma StoodRefuses(cfg: Config, c: Cluster, m: VoteMsg, log: Log)
    requires Loyal(cfg, c) && Enabled(cfg, c, HandleVote(m)) && m.req.candidate != m.to
    requires Ballot(m.to, m.req.term, m.to, log) in c.hist.ballots
    ensures !HandleRequestVote(c.servers[m.to].node, m.req).1.granted
  {
    assert OwnVoteOk(c.servers, Ballot(m.to, m.req.term, m.to, log));
  }

  lemma StillOneWay(cfg: Config, c: Cluster, m: VoteMsg, r: VoteReplyMsg, x: NodeId, y: NodeId, t: Term)
    requires Loyal(cfg, c) && Enabled(cfg, c, HandleVote(m))
    requires r == VoteReplyMsg(m, HandleRequestVote(c.servers[m.to].node, m.req).1, c.servers[m.to].node.log)
    requires GrantsIn(r, x, y, t)
    ensures !Granted(c.net.voteReplies + {r}, y, x, t)
  {
    assert CallOk(cfg, c.hist.ballots, c.servers, m);
    GrantedBefore(c.net.voteReplies, r, y, x, t);
    if Granted(c.net.voteReplies, y, x, t) {
      var q :| q in c.net.voteReplies && GrantsIn(q, y, x, t);
      assert VoteReplyOk(c.net.votes, c.hist.ballots, q);
      assert CallOk(cfg, c.hist.ballots, c.servers, q.msg);
      var log :| Ballot(y, t, y, log) in c.hist.ballots;
      StoodRefuses(cfg, c, m, log);
      assert false;
    }
  }

  lemma FaithfulByHandleVote(cfg: Config, c: Cluster, m: VoteMsg)
    requires Loyal(cfg, c) && Enabled(cfg, c, HandleVote(m))
    ensures Faithful(cfg, DoHandleVote(c, m))
  {
    var s, c' := c.servers[m.to], DoHandleVote(c, m);
    var s', r := c'.servers[m.to], VoteReplyMsg(m, HandleRequestVote(s.node, m.req).1, s.node.log);
    var replies, more := c.net.voteReplies, c'.net.voteReplies;
    LoyalFacts(cfg, c, m.to);
    assert CallOk(cfg, c.hist.ballots, c.servers, m);
    RequestVoteFacts(cfg, s.node, m.req, m.to);
    OwnVotesAfter(c.hist.ballots, c.servers, m.to, s');
    forall b | b in c'.hist.ballots ensures OwnVoteOk(c'.servers, b) {
      assert b in c.hist.ballots ==> OwnVoteOk(c.servers[m.to := s'], b);
    }
    MoreGrants(replies, r, m.to, s, s');
    CountsAfter(replies, more, c.servers, m.to, s');
    forall x, y, t ensures OneWay(more, x, y, t) {
      OneMoreGrant(cfg, c, m, r, x, y, t);
    }
    forall e | e in c.hist.elections ensures ElectedOk(cfg, more, e) {
      StillElected(cfg, replies, r, e);
    }
  }

  lemma OneMoreGrant(cfg: Config, c: Cluster, m: VoteMsg, r: VoteReplyMsg, x: NodeId, y: NodeId, t: Term)
    requires Loyal(cfg, c) && Enabled(cfg, c, HandleVote(m))
    requires r == VoteReplyMsg(m, HandleRequestVote(c.servers[m.to].node, m.req).1, c.servers[m.to].node.log)
    ensures OneWay(c.net.voteReplies + {r}, x, y, t)
  {
    assert OneWay(c.net.voteReplies, x, y, t);
    GrantedBefore(c.net.voteReplies, r, x, y, t);
    GrantedBefore(c.net.voteReplies, r, y, x, t);
    if GrantsIn(r, x, y, t) {
      StillOneWay(cfg, c, m, r, x, y, t);
    } else if GrantsIn(r, y, x, t) {
      StillOneWay(cfg, c, m, r, y, x, t);
    }
  }

  lemma StillElected(cfg: Config, replies: set<VoteReplyMsg>, r: VoteReplyMsg, e: Slot)
    requires ElectedOk(cfg, replies, e)
    ensures ElectedOk(cfg, replies + {r}, e)
  {
    forall y | y in cfg.members && y != e.leader ensures Granted(replies + {r}, e.leader, y, e.term) {
      GrantedBefore(replies, r, e.leader, y, e.term);
    }
  }

  lemma {:induction false} FaithfulAlways(cfg: Config, run: seq<Action>)
    requires |cfg.members| <= 2 && cfg.keepVote
    ensures Base(cfg, After(cfg, run)) && Faithful(cfg, After(cfg, run))
    decreases |run|
  {
    BaseAlways(cfg, run);
    if run != [] {
      var c, a := After(cfg, run[..|run| - 1]), run[|run| - 1];
      FaithfulAlways(cfg, run[..|run| - 1]);
      if Enabled(cfg, c, a) {
        match a {
          case StartElection(i) => FaithfulByStartElection(cfg, c, i);
          case AskVote(i, to, req) =>
          case HandleVote(m) => FaithfulByHandleVote(cfg, c, m);
          case CountVote(i, r) => FaithfulByCountVote(cfg, c, i, r);
          case EndElection(i) => FaithfulByEndElection(cfg, c, i);
          case HandleAppend(m) => FaithfulByHandleAppend(cfg, c, m);
          case EndRound(i, rs, timedOut) => FaithfulByEndRound(cfg, c, i, rs, timedOut);
          case _ => FaithfulByPlain(cfg, c, a);
        }
      }
    }
  }

  lemma DifferentTerms(cfg: Config, c: Cluster, s1: Slot, s2: Slot)
    requires Faithful(cfg, c) && s1 in c.hist.elections && s2 in c.hist.elections && s1.leader != s2.leader
    ensures s1.term != s2.term
  {
    assert ElectedOk(cfg, c.net.voteReplies, s1) && ElectedOk(cfg, c.net.voteReplies, s2);
    assert OneWay(c.net.voteReplies, s1.leader, s2.leader, s1.term);
  }

  /** Two nodes that keep their votes, or one node, never elect two leaders in a term. */
  lemma OneLeaderOfTwo(cfg: Config, run: seq<Action>)
    requires |cfg.members| <= 1 || (|cfg.members| == 2 && cfg.keepVote)
    ensures UniqueLeaders(After(cfg, run).hist.elections)
  {
    var c := After(cfg, run);
    BaseAlways(cfg, run);
    forall s1, s2 | s1 in c.hist.elections && s2 in c.hist.elections && s1.term == s2.term ensures s1 == s2 {
      assert ElectionOk(cfg, c.hist.ballots, s1, c.hist.elections[s1]);
      assert ElectionOk(cfg, c.hist.ballots, s2, c.hist.elections[s2]);
      if s1 != s2 {
        SubsetSize({s1.leader, s2.leader}, cfg.members);
        FaithfulAlways(cfg, run);
        DifferentTerms(cfg, c, s1, s2);
        assert false;
      }
    }
  }
}
