/** What holds in every run, however late newer terms are adopted.

    Adopting a term late can lower a node's term and make it forget a vote. What survives rests on
    a node's level, which never falls: it never again stands in a term up to it. */
module AnyRun {
  import opened RaftTypes
  import opened RaftSteps
  import opened Cluster
  import opened ElectionSafety
  import opened LogSafety

  /** The term of the candidacy under way, or else the node's term. */
  function Level(s: Server): Term {
    if s.thread.Campaign? then s.thread.since else s.node.term
  }

  // ----- the invariant -----

  /** A newer term was seen by a candidate of a lower one; replication indices fit the log. */
  ghost predicate LocalOk(cfg: Config, appends: set<AppendMsg>, i: NodeId, s: Server) {
    && (s.thread.Campaign? && s.thread.newer.Some? ==> s.thread.since < s.thread.newer.value)
    && ReplicationOk(cfg, appends, i, s)
  }

  ghost predicate LocalsOk(cfg: Config, appends: set<AppendMsg>, servers: Servers) {
    forall i {:trigger LocalOk(cfg, appends, i, servers[i])} :: i in servers ==> LocalOk(cfg, appends, i, servers[i])
  }

  ghost predicate SentByPeer(cfg: Config, m: AppendMsg) {
    SentToPeer(cfg, m) && m.req.leader in cfg.members
  }

  ghost predicate AppendsBuilt(cfg: Config, appends: set<AppendMsg>) {
    forall m {:trigger SentByPeer(cfg, m)} :: m in appends ==> SentByPeer(cfg, m)
  }

  ghost predicate StoodIn(ballots: set<Ballot>, i: NodeId, t: Term) {
    exists log :: Ballot(i, t, i, log) in ballots
  }

  /** A vote request comes from a candidacy of its sender; while the sender is still candidate
      in it, the request shows its term and log. */
  ghost predicate CallOk(cfg: Config, ballots: set<Ballot>, servers: Servers, m: VoteMsg) {
    && m.req.candidate in servers && m.to in cfg.members && m.to != m.req.candidate
    && 1 <= m.since <= m.req.term && m.since <= Level(servers[m.req.candidate])
    && StoodIn(ballots, m.req.candidate, m.since)
    && var n := servers[m.req.candidate].node;
       (n.role.Candidate? && m.since == n.term ==> m.req == BuildVoteRequest(n, m.req.candidate))
  }

  ghost predicate CallsOk(cfg: Config, ballots: set<Ballot>, votes: set<VoteMsg>, servers: Servers) {
    forall m {:trigger CallOk(cfg, ballots, servers, m)} :: m in votes ==> CallOk(cfg, ballots, servers, m)
  }

  /** A node votes for itself only when it stands. */
  ghost predicate OwnBallotOk(servers: Servers, b: Ballot) {
    b.voter in servers && (b.candidate == b.voter ==> b.term <= Level(servers[b.voter]))
  }

  ghost predicate OwnBallotsOk(ballots: set<Ballot>, servers: Servers) {
    forall b {:trigger OwnBallotOk(servers, b)} :: b in ballots ==> OwnBallotOk(servers, b)
  }

  ghost predicate StandingOk(ballots: set<Ballot>, i: NodeId, s: Server) {
    s.thread.Campaign? ==> StoodIn(ballots, i, s.thread.since)
  }

  ghost predicate StandingsOk(ballots: set<Ballot>, servers: Servers) {
    forall i {:trigger StandingOk(ballots, i, servers[i])} :: i in servers ==> StandingOk(ballots, i, servers[i])
  }

  ghost predicate Base(cfg: Config, c: Cluster) {
    && ServersOk(cfg, c.hist.ballots, c.hist.elections, c.servers)
    && LocalsOk(cfg, c.net.appends, c.servers) && AppendsBuilt(cfg, c.net.appends)
    && CallsOk(cfg, c.hist.ballots, c.net.votes, c.servers)
    && VoteRepliesOk(c.net.votes, c.net.voteReplies, c.hist.ballots)
    && ElectionsOk(cfg, c.hist.ballots, c.hist.elections)
    && OwnBallotsOk(c.hist.ballots, c.servers) && StandingsOk(c.hist.ballots, c.servers)
  }

  // ----- one node changes -----

  /** The level does not fall, and a candidate's term and log stay while it is one. */
  ghost predicate Climbs(s: Server, s': Server) {
    && Level(s) <= Level(s')
    && (s'.node.role.Candidate? && s'.node.term <= Level(s) ==>
          s.node.role.Candidate? && s'.node.term == s.node.term && s'.node.log == s.node.log)
  }

  lemma CallsAfter(cfg: Config, ballots: set<Ballot>, more: set<Ballot>, votes: set<VoteMsg>, servers: Servers,
                   i: NodeId, s: Server)
    requires CallsOk(cfg, ballots, votes, servers) && i in servers && Climbs(servers[i], s) && ballots <= more
    ensures CallsOk(cfg, more, votes, servers[i := s])
  {
    forall m | m in votes ensures CallOk(cfg, more, servers[i := s], m) {
      assert CallOk(cfg, ballots, servers, m);
    }
  }

  lemma OwnBallotsAfter(ballots: set<Ballot>, servers: Servers, i: NodeId, s: Server)
    requires OwnBallotsOk(ballots, servers) && i in servers && Level(servers[i]) <= Level(s)
    ensures OwnBallotsOk(ballots, servers[i := s])
  {
    forall b | b in ballots ensures OwnBallotOk(servers[i := s], b) {
      assert OwnBallotOk(servers, b);
    }
  }

  lemma StandingsAfter(ballots: set<Ballot>, more: set<Ballot>, servers: Servers, i: NodeId, s: Server)
    requires StandingsOk(ballots, servers) && i in servers && ballots <= more && StandingOk(more, i, s)
    ensures StandingsOk(more, servers[i := s])
  {
    var after := servers[i := s];
    forall j | j in after ensures StandingOk(more, j, after[j]) {
      assert j in servers ==> StandingOk(ballots, j, servers[j]);
    }
  }

  lemma LocalsAfter(cfg: Config, appends: set<AppendMsg>, more: set<AppendMsg>, servers: Servers, i: NodeId, s: Server)
    requires LocalsOk(cfg, appends, servers) && i in servers && appends <= more && LocalOk(cfg, more, i, s)
    ensures LocalsOk(cfg, more, servers[i := s])
  {
    var after := servers[i := s];
    forall j | j in after ensures LocalOk(cfg, more, j, after[j]) {
      assert j in servers ==> LocalOk(cfg, appends, j, servers[j]);
    }
  }

  lemma ServersAfter(cfg: Config, ballots: set<Ballot>, elections: Elections, servers: Servers, i: NodeId, s: Server)
    requires ServersOk(cfg, ballots, elections, servers) && i in servers && ServerOk(cfg, ballots, elections, i, s)
    ensures ServersOk(cfg, ballots, elections, servers[i := s])
  {
  }

  lemma BaseKeptByNode(cfg: Config, c: Cluster, c': Cluster, i: NodeId, s: Server)
    requires Base(cfg, c) && OnlyNode(c, c', i, s) && c.net.appends <= c'.net.appends
    requires ServerOk(cfg, c.hist.ballots, c.hist.elections, i, s) && StandingOk(c.hist.ballots, i, s)
    requires LocalOk(cfg, c'.net.appends, i, s) && Climbs(c.servers[i], s) && AppendsBuilt(cfg, c'.net.appends)
    ensures Base(cfg, c')
  {
    ServersAfter(cfg, c.hist.ballots, c.hist.elections, c.servers, i, s);
    LocalsAfter(cfg, c.net.appends, c'.net.appends, c.servers, i, s);
    CallsAfter(cfg, c.hist.ballots, c.hist.ballots, c.net.votes, c.servers, i, s);
    OwnBallotsAfter(c.hist.ballots, c.servers, i, s);
    StandingsAfter(c.hist.ballots, c.hist.ballots, c.servers, i, s);
  }

  lemma Facts(cfg: Config, c: Cluster, i: NodeId)
    requires Base(cfg, c) && i in c.servers
    ensures ServerOk(cfg, c.hist.ballots, c.hist.elections, i, c.servers[i])
    ensures LocalOk(cfg, c.net.appends, i, c.servers[i]) && StandingOk(c.hist.ballots, i, c.servers[i])
  {
  }

  // ----- actions that cast no vote -----

  lemma BaseKeptByCountVote(cfg: Config, c: Cluster, i: NodeId, r: VoteReplyMsg)
    requires Base(cfg, c) && Enabled(cfg, c, CountVote(i, r))
    ensures Base(cfg, DoCountVote(c, i, r))
  {
    var c' := DoCountVote(c, i, r);
    Facts(cfg, c, i);
    assert VoteReplyOk(c.net.votes, c.hist.ballots, r);
    assert CallOk(cfg, c.hist.ballots, c.servers, r.msg);
    BaseKeptByNode(cfg, c, c', i, c'.servers[i]);
  }

  lemma BaseKeptByAdopt(cfg: Config, c: Cluster, i: NodeId)
    requires Base(cfg, c) && Enabled(cfg, c, Adopt(i))
    ensures Base(cfg, DoAdopt(c, i))
  {
    var c' := DoAdopt(c, i);
    Facts(cfg, c, i);
    BaseKeptByNode(cfg, c, c', i, c'.servers[i]);
  }

  lemma BaseKeptByHandleAppend(cfg: Config, c: Cluster, m: AppendMsg)
    requires Base(cfg, c) && Enabled(cfg, c, HandleAppend(m))
    ensures Base(cfg, DoHandleAppend(c, m))
  {
    var c' := DoHandleAppend(c, m);
    Facts(cfg, c, m.to);
    HandleAppendIsQuiet(cfg, c.servers[m.to].node, m.req);
    BaseKeptByNode(cfg, c, c', m.to, c'.servers[m.to]);
  }

  lemma BaseKeptByEndRound(cfg: Config, c: Cluster, i: NodeId, rs: seq<AppendReplyMsg>, timedOut: bool)
    requires Base(cfg, c) && Enabled(cfg, c, EndRound(i, rs, timedOut))
    ensures Base(cfg, DoEndRound(cfg, c, i, rs, timedOut))
  {
    var n, c' := c.servers[i].node, DoEndRound(cfg, c, i, rs, timedOut);
    Facts(cfg, c, i);
    forall m | m in c.net.appends ensures SentToPeer(cfg, m) {
      assert SentByPeer(cfg, m);
    }
    RoundResultsFit(cfg, c.net.appends, i, c.servers[i], rs);
    FinishRoundIsQuiet(cfg, n, ResultsOf(rs), timedOut);
    FinishRoundReplication(cfg, c.net.appends, i, c.servers[i], ResultsOf(rs), timedOut);
    BaseKeptByNode(cfg, c, c', i, c'.servers[i]);
  }

  lemma BaseKeptByStartRound(cfg: Config, c: Cluster, i: NodeId)
    requires Base(cfg, c) && Enabled(cfg, c, StartRound(i))
    ensures Base(cfg, DoStartRound(cfg, c, i))
  {
    var c' := DoStartRound(cfg, c, i);
    Facts(cfg, c, i);
    forall m | m in c'.net.appends ensures SentByPeer(cfg, m) {
    }
    BaseKeptByNode(cfg, c, c', i, c'.servers[i]);
  }

  lemma BaseKeptByLeaderWork(cfg: Config, c: Cluster, a: Action)
    requires a.SetIndices? || a.ProposeCommand?
    requires Base(cfg, c) && Enabled(cfg, c, a)
    ensures Base(cfg, Do(cfg, c, a))
  {
    var c' := Do(cfg, c, a);
    Facts(cfg, c, a.id);
    BaseKeptByNode(cfg, c, c', a.id, c'.servers[a.id]);
  }

  // ----- votes -----

  lemma BaseKeptByVote(cfg: Config, c: Cluster, c': Cluster, b: Ballot, s: Server)
    requires Base(cfg, c) && b.voter in c.servers
    requires ServerOk(cfg, c.hist.ballots + {b}, c.hist.elections, b.voter, s)
    requires StandingOk(c.hist.ballots + {b}, b.voter, s) && LocalOk(cfg, c.net.appends, b.voter, s)
    requires Climbs(c.servers[b.voter], s) && (b.candidate == b.voter ==> b.term <= Level(s))
    requires c' == c.(servers := c.servers[b.voter := s], hist := c.hist.(ballots := c.hist.ballots + {b}))
    ensures Base(cfg, c')
  {
    var ballots, i := c.hist.ballots, b.voter;
    VoteServers(cfg, ballots, b, c.hist.elections, c.servers, s);
    VoteReplies(c.net.votes, c.net.voteReplies, ballots, b);
    VoteElections(cfg, ballots, b, c.hist.elections);
    LocalsAfter(cfg, c.net.appends, c.net.appends, c.servers, i, s);
    CallsAfter(cfg, ballots, ballots + {b}, c.net.votes, c.servers, i, s);
    OwnBallotsAfter(ballots, c.servers, i, s);
    StandingsAfter(ballots, ballots + {b}, c.servers, i, s);
  }

  lemma BaseKeptByStartElection(cfg: Config, c: Cluster, i: NodeId)
    requires Base(cfg, c) && Enabled(cfg, c, StartElection(i))
    ensures Base(cfg, DoStartElection(c, i))
  {
    var c' := DoStartElection(c, i);
    var s := c'.servers[i];
    var b := Ballot(i, s.node.term, i, s.node.log);
    Facts(cfg, c, i);
    assert b in c.hist.ballots + {b};
    BaseKeptByVote(cfg, c, c', b, s);
  }

  lemma BaseKeptByAskVote(cfg: Config, c: Cluster, i: NodeId, to: NodeId, req: VoteRequest)
    requires Base(cfg, c) && Enabled(cfg, c, AskVote(i, to, req))
    ensures Base(cfg, Do(cfg, c, AskVote(i, to, req)))
  {
    var c' := Do(cfg, c, AskVote(i, to, req));
    Facts(cfg, c, i);
    forall m | m in c'.net.votes ensures CallOk(cfg, c.hist.ballots, c.servers, m) {
      assert m in c.net.votes ==> CallOk(cfg, c.hist.ballots, c.servers, m);
    }
    forall r | r in c'.net.voteReplies ensures VoteReplyOk(c'.net.votes, c'.hist.ballots, r) {
      assert VoteReplyOk(c.net.votes, c.hist.ballots, r);
    }
  }

  lemma BaseKeptByReply(cfg: Config, c: Cluster, r: VoteReplyMsg)
    requires Base(cfg, c) && VoteReplyOk(c.net.votes, c.hist.ballots, r)
    ensures Base(cfg, c.(net := c.net.(voteReplies := c.net.voteReplies + {r})))
  {
  }

  lemma BaseKeptByHandleVote(cfg: Config, c: Cluster, m: VoteMsg)
    requires Base(cfg, c) && Enabled(cfg, c, HandleVote(m))
    ensures Base(cfg, DoHandleVote(c, m))
  {
    var s, c' := c.servers[m.to], DoHandleVote(c, m);
    var s', c0 := c'.servers[m.to], c'.(net := c.net);
    var b := Ballot(m.to, m.req.term, m.req.candidate, s.node.log);
    assert CallOk(cfg, c.hist.ballots, c.servers, m);
    Facts(cfg, c, m.to);
    RequestVoteFacts(cfg, s.node, m.req, m.to);
    AnsweringServer(cfg, c.hist.ballots, c0.hist.ballots, c.hist.elections, m.to, s, s');
    if HandleRequestVote(s.node, m.req).1.granted {
      BaseKeptByVote(cfg, c, c0, b, s');
    } else {
      BaseKeptByNode(cfg, c, c0, m.to, s');
    }
    BaseKeptByReply(cfg, c0, VoteReplyMsg(m, HandleRequestVote(s.node, m.req).1, s.node.log));
  }

  // ----- winning -----

  lemma MoreElections(cfg: Config, ballots: set<Ballot>, elections: Elections, more: Elections, servers: Servers)
    requires ServersOk(cfg, ballots, elections, servers) && elections.Keys <= more.Keys
    ensures ServersOk(cfg, ballots, more, servers)
  {
    forall i | i in servers ensures ServerOk(cfg, ballots, more, i, servers[i]) {
      assert ServerOk(cfg, ballots, elections, i, servers[i]);
    }
  }

  lemma BaseKeptByEndElection(cfg: Config, c: Cluster, i: NodeId)
    requires Base(cfg, c) && Enabled(cfg, c, EndElection(i))
    ensures Base(cfg, DoEndElection(cfg, c, i))
  {
    var s, c' := c.servers[i], DoEndElection(cfg, c, i);
    Facts(cfg, c, i);
    if c'.servers[i].node.role.Leader? {
      var slot := Slot(s.node.term, i);
      var c1 := c.(hist := c.hist.(elections := c'.hist.elections));
      WinElections(cfg, c.hist.ballots, c.hist.elections, i, s, c'.hist.elections[slot]);
      MoreElections(cfg, c.hist.ballots, c.hist.elections, c'.hist.elections, c.servers);
      BaseKeptByNode(cfg, c1, c', i, c'.servers[i]);
    } else {
      BaseKeptByNode(cfg, c, c', i, c'.servers[i]);
    }
  }

  // ----- runs -----

  lemma BaseKeptByStep(cfg: Config, c: Cluster, a: Action)
    requires Base(cfg, c)
    ensures Base(cfg, Step(cfg, c, a))
  {
    if Enabled(cfg, c, a) {
      match a {
        case StartElection(i) => BaseKeptByStartElection(cfg, c, i);
        case AskVote(i, to, req) => BaseKeptByAskVote(cfg, c, i, to, req);
        case HandleVote(m) => BaseKeptByHandleVote(cfg, c, m);
        case CountVote(i, r) => BaseKeptByCountVote(cfg, c, i, r);
        case Adopt(i) => BaseKeptByAdopt(cfg, c, i);
        case EndElection(i) => BaseKeptByEndElection(cfg, c, i);
        case StartRound(i) => BaseKeptByStartRound(cfg, c, i);
        case HandleAppend(m) => BaseKeptByHandleAppend(cfg, c, m);
        case EndRound(i, rs, timedOut) => BaseKeptByEndRound(cfg, c, i, rs, timedOut);
        case _ => BaseKeptByLeaderWork(cfg, c, a);
      }
    }
  }

  /** Every run, whenever terms are adopted. */
  lemma {:induction false} BaseAlways(cfg: Config, run: seq<Action>)
    ensures Base(cfg, After(cfg, run))
    decreases |run|
  {
    if run != [] {
      BaseAlways(cfg, run[..|run| - 1]);
      BaseKeptByStep(cfg, After(cfg, run[..|run| - 1]), run[|run| - 1]);
    }
  }

  // ----- who creates entries -----

  /** Action p of the run is a proposal that node i, leader of term t, appends to its log. */
  ghost predicate CreatesAt(cfg: Config, run: seq<Action>, p: int, i: NodeId, t: Term) {
    && 0 <= p < |run| && run[p].ProposeCommand? && run[p].id == i && i in cfg.members
    && i in After(cfg, run[..p]).servers
    && After(cfg, run[..p]).servers[i].node.role.Leader? && After(cfg, run[..p]).servers[i].node.term == t
  }

  /** A node acknowledges to itself exactly what it creates. */
  ghost predicate Created(acks: set<Ack>, i: NodeId, t: Term) {
    exists log :: Ack(i, Slot(t, i), log) in acks
  }

  lemma CreatedByStep(cfg: Config, c: Cluster, a: Action, i: NodeId, t: Term)
    requires Base(cfg, c)
    ensures Created(Step(cfg, c, a).hist.acks, i, t) <==>
            || Created(c.hist.acks, i, t)
            || (a.ProposeCommand? && a.id == i && i in cfg.members && i in c.servers &&
                c.servers[i].node.role.Leader? && c.servers[i].node.term == t)
  {
    var c' := Step(cfg, c, a);
    if Created(c.hist.acks, i, t) {
      var log :| Ack(i, Slot(t, i), log) in c.hist.acks;
      assert Ack(i, Slot(t, i), log) in c'.hist.acks;
    }
    if a.ProposeCommand? && a.id == i && i in cfg.members && i in c.servers &&
       c.servers[i].node.role.Leader? && c.servers[i].node.term == t
    {
      assert Ack(i, Slot(t, i), c'.servers[i].node.log) in c'.hist.acks;
    }
    if a.HandleAppend? && Enabled(cfg, c, a) {
      assert SentByPeer(cfg, a.append);
    }
  }

  lemma {:induction false} CreatedExactly(cfg: Config, run: seq<Action>, i: NodeId, t: Term)
    ensures Created(After(cfg, run).hist.acks, i, t) <==> exists p :: CreatesAt(cfg, run, p, i, t)
    decreases |run|
  {
    if run == [] {
      assert After(cfg, run).hist.acks == {};
    } else {
      var n := |run| - 1;
      var before := run[..n];
      CreatedExactly(cfg, before, i, t);
      BaseAlways(cfg, before);
      CreatedByStep(cfg, After(cfg, before), run[n], i, t);
      forall p | p < n ensures CreatesAt(cfg, run, p, i, t) <==> CreatesAt(cfg, before, p, i, t) {
        assert p >= 0 ==> before[..p] == run[..p];
      }
      if p :| CreatesAt(cfg, before, p, i, t) {
        assert CreatesAt(cfg, run, p, i, t);
      }
      if CreatesAt(cfg, run, n, i, t) {
        assert Created(After(cfg, run).hist.acks, i, t);
      }
    }
  }

  // ----- the phases without the lock -----

  /** A node that is still candidate when it counts has the term and log it started with, and
      each vote it counted is the vote of a different peer, cast for it in this term. */
  lemma StillCandidate(cfg: Config, run: seq<Action>, i: NodeId, v: NodeId)
    requires var c := After(cfg, run);
      i in c.servers && c.servers[i].thread.Campaign? && c.servers[i].node.role.Candidate?
    ensures var c := After(cfg, run);
      var s := c.servers[i];
      && s.node.term == s.thread.since && s.node.log == s.thread.began
      && (v in s.thread.votes ==>
            v != i && v in cfg.members && Ballot(v, s.node.term, i, s.thread.votes[v]) in c.hist.ballots)
  {
    BaseAlways(cfg, run);
    Facts(cfg, After(cfg, run), i);
  }

  /** A node that is still leader after a round is in the term in which it sent the round, and its
      log only grew. */
  lemma StillLeader(cfg: Config, run: seq<Action>, i: NodeId)
    requires var c := After(cfg, run);
      i in c.servers && c.servers[i].thread.Round? && c.servers[i].node.role.Leader?
    ensures var s := After(cfg, run).servers[i];
      s.node.term == s.thread.term && s.thread.began <= s.node.log
  {
    BaseAlways(cfg, run);
    Facts(cfg, After(cfg, run), i);
  }

  /** Whenever a leader starts a round, the request for each peer looks into the leader's log. */
  lemma RequestsInBounds(cfg: Config, run: seq<Action>, i: NodeId, p: NodeId)
    requires i in After(cfg, run).servers && After(cfg, run).servers[i].node.role.Leader?
    requires After(cfg, run).servers[i].thread.Idle?
    ensures var n := After(cfg, run).servers[i].node;
      1 <= NextFor(n, p) <= |n.log| + 1
  {
    BaseAlways(cfg, run);
    Facts(cfg, After(cfg, run), i);
  }

  /** Every node takes part in every run. */
  lemma Present(cfg: Config, run: seq<Action>)
    ensures After(cfg, run).servers.Keys == cfg.members
  {
    BaseAlways(cfg, run);
  }
}
