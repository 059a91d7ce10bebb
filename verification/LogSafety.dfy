/** Replicated logs (section 5.3 of the Raft paper): one creator of entries per term, and
    logs that agree on an entry agree on everything before it. */
module LogSafety {
  import opened RaftTypes
  import opened RaftSteps
  import opened Cluster
  import opened ElectionSafety
  import opened LogMerge

  type TermLogs = map<Term, TermLog>

  // ----- logs, compared with the logs of the leaders that created their entries -----

  /** The entry at position k, with all before it, is as the creator of its term had it. */
  ghost predicate AnchoredAt(tl: TermLogs, log: Log, k: nat)
    requires k < |log|
  {
    log[k].term in tl && log[..k + 1] <= tl[log[k].term].log
  }

  ghost predicate Anchored(tl: TermLogs, log: Log) {
    forall k {:trigger AnchoredAt(tl, log, k)} :: 0 <= k < |log| ==> AnchoredAt(tl, log, k)
  }

  /** All terms in the log are below `t`. */
  ghost predicate Below(log: Log, t: Term) {
    forall k :: 0 <= k < |log| ==> log[k].term < t
  }

  /** The log of a term's leader as far as it got in that term. */
  ghost function LeaderLog(elections: Elections, tl: TermLogs, s: Slot): Log {
    if s.term in tl && tl[s.term].creator == s.leader then tl[s.term].log
    else if s in elections then elections[s].startLog else []
  }

  // ----- the invariant -----

  ghost predicate TermLogOk(elections: Elections, tl: TermLogs, t: Term)
    requires t in tl
  {
    var s, log := Slot(t, tl[t].creator), tl[t].log;
    && s in elections && Anchored(tl, log)
    && elections[s].startLog <= log && |elections[s].startLog| < |log|
    && forall k :: |elections[s].startLog| <= k < |log| ==> log[k].term == t
  }

  /** Any other leader of the term was elected before the one that created its entries. */
  ghost predicate CreatorIsLast(elections: Elections, tl: TermLogs, t: Term)
    requires t in tl
  {
    Slot(t, tl[t].creator) in elections &&
    forall l :: Slot(t, l) in elections && l != tl[t].creator ==>
      elections[Slot(t, l)].order < elections[Slot(t, tl[t].creator)].order
  }

  ghost predicate OtherLeader(elections: Elections, t: Term, i: NodeId) {
    exists l :: l != i && Slot(t, l) in elections
  }

  /** While its creator stays in the term, only another leader of the term can have changed its log. */
  ghost predicate CreatorKeeps(elections: Elections, tl: TermLogs, servers: Servers, t: Term)
    requires t in tl
  {
    var i := tl[t].creator;
    i in servers && servers[i].node.term == t && servers[i].node.log != tl[t].log ==> OtherLeader(elections, t, i)
  }

  ghost predicate TermLogsOk(elections: Elections, tl: TermLogs) {
    forall t {:trigger TermLogOk(elections, tl, t)} {:trigger CreatorIsLast(elections, tl, t)} :: t in tl ==>
      TermLogOk(elections, tl, t) && CreatorIsLast(elections, tl, t)
  }

  ghost predicate CreatorsKeep(elections: Elections, tl: TermLogs, servers: Servers) {
    forall t {:trigger CreatorKeeps(elections, tl, servers, t)} :: t in tl ==> CreatorKeeps(elections, tl, servers, t)
  }

  /** A deposed creator votes with the entries it created, unless another leader replaced them. */
  ghost predicate BallotLog(elections: Elections, tl: TermLogs, b: Ballot) {
    && Anchored(tl, b.log)
    && (b.term in tl && tl[b.term].creator == b.voter && b.candidate != b.voter && LastTerm(b.log) != b.term ==>
          OtherLeader(elections, b.term, b.voter))
  }

  ghost predicate BallotLogs(elections: Elections, tl: TermLogs, ballots: set<Ballot>) {
    forall b {:trigger BallotLog(elections, tl, b)} :: b in ballots ==> BallotLog(elections, tl, b)
  }

  ghost predicate StartLogs(elections: Elections, tl: TermLogs) {
    forall s {:trigger StartLog(elections, tl, s)} :: s in elections ==> StartLog(elections, tl, s)
  }

  ghost predicate StartLog(elections: Elections, tl: TermLogs, s: Slot)
    requires s in elections
  {
    Below(elections[s].startLog, s.term) && Anchored(tl, elections[s].startLog)
  }

  /** The request shows its sender's log from `prevIndex` on, and the term just before. */
  ghost predicate WellBuilt(m: AppendMsg) {
    && m.req.prevIndex <= |m.log| && m.req.prevTerm == TermAt(m.log, m.req.prevIndex)
    && m.req.entries == m.log[m.req.prevIndex..]
  }

  ghost predicate SentToPeer(cfg: Config, m: AppendMsg) {
    WellBuilt(m) && m.to in cfg.members && m.to != m.req.leader
  }

  ghost predicate AppendOk(cfg: Config, elections: Elections, tl: TermLogs, m: AppendMsg) {
    var s := Slot(m.req.term, m.req.leader);
    && SentToPeer(cfg, m) && m.req.term >= 1
    && s in elections && elections[s].startLog <= m.log <= LeaderLog(elections, tl, s)
  }

  ghost predicate AppendsOk(cfg: Config, elections: Elections, tl: TermLogs, appends: set<AppendMsg>) {
    forall m {:trigger AppendOk(cfg, elections, tl, m)} :: m in appends ==> AppendOk(cfg, elections, tl, m)
  }

  /** Every request a leader can build looks into its log. */
  ghost predicate IndicesOk(n: NodeState) {
    forall p :: p in n.nextIndex ==> 1 <= n.nextIndex[p] <= |n.log| + 1
  }

  ghost predicate SentOk(appends: set<AppendMsg>, i: NodeId, s: Server)
    requires s.thread.Round?
  {
    forall m :: m in s.thread.sent ==>
      m in appends && m.req.leader == i && m.req.term == s.thread.term && m.log == s.thread.began
  }

  /** The replication indices are those of peers, and a leader's fit its log. */
  ghost predicate ReplicationOk(cfg: Config, appends: set<AppendMsg>, i: NodeId, s: Server) {
    && (s.node.role.Leader? && !s.thread.Won? ==> IndicesOk(s.node))
    && (s.node.role.Leader? && s.thread.Round? ==> cfg.members - {i} <= s.node.nextIndex.Keys)
    && s.node.nextIndex.Keys <= cfg.members - {i} && s.node.matchIndex.Keys <= cfg.members - {i}
    && (s.thread.Round? ==> SentOk(appends, i, s))
  }

  ghost predicate ServerLog(cfg: Config, elections: Elections, tl: TermLogs, appends: set<AppendMsg>, i: NodeId,
                            s: Server) {
    && Anchored(tl, s.node.log) && Below(s.node.log, s.node.term + 1)
    && (s.node.role.Candidate? ==> Below(s.node.log, s.node.term))
    && (s.node.role.Leader? ==> s.node.log == LeaderLog(elections, tl, Slot(s.node.term, i)))
    && ReplicationOk(cfg, appends, i, s)
  }

  ghost predicate ServerLogs(cfg: Config, elections: Elections, tl: TermLogs, appends: set<AppendMsg>,
                             servers: Servers) {
    forall i {:trigger ServerLog(cfg, elections, tl, appends, i, servers[i])} :: i in servers ==>
      ServerLog(cfg, elections, tl, appends, i, servers[i])
  }

  ghost predicate LogInv(cfg: Config, c: Cluster) {
    && TermLogsOk(c.hist.elections, c.hist.termLogs)
    && CreatorsKeep(c.hist.elections, c.hist.termLogs, c.servers)
    && BallotLogs(c.hist.elections, c.hist.termLogs, c.hist.ballots)
    && StartLogs(c.hist.elections, c.hist.termLogs)
    && AppendsOk(cfg, c.hist.elections, c.hist.termLogs, c.net.appends)
    && ServerLogs(cfg, c.hist.elections, c.hist.termLogs, c.net.appends, c.servers)
  }

  // ----- facts about anchored logs -----

  lemma AnchoredPrefix(tl: TermLogs, log: Log, n: nat)
    requires Anchored(tl, log) && n <= |log|
    ensures Anchored(tl, log[..n])
  {
    forall k | 0 <= k < n ensures AnchoredAt(tl, log[..n], k) {
      assert AnchoredAt(tl, log, k);
      assert log[..n][..k + 1] == log[..k + 1];
    }
  }

  /** Log matching for two logs: the same term at the same position, the same log up to there. */
  lemma Matching2(tl: TermLogs, a: Log, b: Log, k: nat)
    requires Anchored(tl, a) && Anchored(tl, b)
    requires k < |a| && k < |b| && a[k].term == b[k].term
    ensures a[..k + 1] == b[..k + 1]
  {
    assert AnchoredAt(tl, a, k) && AnchoredAt(tl, b, k);
  }

  lemma AnchoredMatch(tl: TermLogs, a: Log, b: Log)
    requires Anchored(tl, a) && Anchored(tl, b)
    ensures LogsMatch(a, b)
  {
    forall k | 0 <= k < |a| && k < |b| ensures MatchAt(a, b, k) {
      if a[k].term == b[k].term {
        Matching2(tl, a, b, k);
      }
    }
  }

  // ----- actions that change one node and no creation, vote or election -----

  lemma CreatorsKeepAfter(elections: Elections, tl: TermLogs, servers: Servers, i: NodeId, s: Server)
    requires CreatorsKeep(elections, tl, servers) && TermLogsOk(elections, tl) && WinnersMoveOn(elections, servers)
    requires i in servers && servers[i].node.term <= s.node.term
    requires s.node.log == servers[i].node.log || OtherLeader(elections, s.node.term, i)
    ensures CreatorsKeep(elections, tl, servers[i := s])
  {
    forall t | t in tl ensures CreatorKeeps(elections, tl, servers[i := s], t) {
      assert CreatorKeeps(elections, tl, servers, t);
      assert TermLogOk(elections, tl, t);
      assert WinnerMovesOn(servers, Slot(t, tl[t].creator));
    }
  }

  lemma ServerLogsAfter(cfg: Config, elections: Elections, tl: TermLogs, appends: set<AppendMsg>, servers: Servers,
                        i: NodeId, s: Server)
    requires ServerLogs(cfg, elections, tl, appends, servers)
    requires ServerLog(cfg, elections, tl, appends, i, s)
    ensures ServerLogs(cfg, elections, tl, appends, servers[i := s])
  {
    var servers' := servers[i := s];
    forall j | j in servers' ensures ServerLog(cfg, elections, tl, appends, j, servers'[j]) {
      assert j != i ==> ServerLog(cfg, elections, tl, appends, j, servers[j]);
    }
  }

  /** `c'` differs from `c` in one node and in nothing else that the log invariant reads. */
  ghost predicate OnlyNodeLog(c: Cluster, c': Cluster, i: NodeId, s: Server) {
    && i in c.servers && c'.servers == c.servers[i := s]
    && c'.net.appends == c.net.appends && c'.hist.ballots == c.hist.ballots
    && c'.hist.elections == c.hist.elections && c'.hist.termLogs == c.hist.termLogs
  }

  lemma LogKeptByNode(cfg: Config, c: Cluster, c': Cluster, i: NodeId, s: Server)
    requires Inv(cfg, c) && LogInv(cfg, c) && OnlyNodeLog(c, c', i, s)
    requires ServerLog(cfg, c.hist.elections, c.hist.termLogs, c.net.appends, i, s)
    requires c.servers[i].node.term <= s.node.term
    requires s.node.log == c.servers[i].node.log || OtherLeader(c.hist.elections, s.node.term, i)
    ensures LogInv(cfg, c')
  {
    CreatorsKeepAfter(c.hist.elections, c.hist.termLogs, c.servers, i, s);
    ServerLogsAfter(cfg, c.hist.elections, c.hist.termLogs, c.net.appends, c.servers, i, s);
  }

  /** What a node's log satisfies survives a higher term and a lower role. */
  lemma ServerLogDemoted(cfg: Config, elections: Elections, tl: TermLogs, appends: set<AppendMsg>, i: NodeId,
                         s: Server, s': Server)
    requires ServerLog(cfg, elections, tl, appends, i, s)
    requires s'.node.log == s.node.log && s.node.term <= s'.node.term
    requires s'.node.role.Follower? || (s'.node.role == s.node.role && s'.node.term == s.node.term)
    requires s'.node.nextIndex == s.node.nextIndex && s'.node.matchIndex == s.node.matchIndex
    requires s'.node.role.Leader? ==> s'.thread.Won? || !s.thread.Won?
    requires s'.thread.Round? ==> s'.thread == s.thread
    ensures ServerLog(cfg, elections, tl, appends, i, s')
  {
  }

  lemma LogKeptByCountVote(cfg: Config, c: Cluster, i: NodeId, r: VoteReplyMsg)
    requires Inv(cfg, c) && LogInv(cfg, c) && Enabled(cfg, c, CountVote(i, r))
    ensures LogInv(cfg, DoCountVote(c, i, r))
  {
    var s, c' := c.servers[i], DoCountVote(c, i, r);
    assert ServerLog(cfg, c.hist.elections, c.hist.termLogs, c.net.appends, i, s);
    ServerLogDemoted(cfg, c.hist.elections, c.hist.termLogs, c.net.appends, i, s, c'.servers[i]);
    LogKeptByNode(cfg, c, c', i, c'.servers[i]);
  }

  lemma LogKeptByAdopt(cfg: Config, c: Cluster, i: NodeId)
    requires Inv(cfg, c) && LogInv(cfg, c) && Enabled(cfg, c, Adopt(i)) && Timely(c, Adopt(i))
    ensures LogInv(cfg, DoAdopt(c, i))
  {
    var s, c' := c.servers[i], DoAdopt(c, i);
    assert ServerLog(cfg, c.hist.elections, c.hist.termLogs, c.net.appends, i, s);
    ServerLogDemoted(cfg, c.hist.elections, c.hist.termLogs, c.net.appends, i, s, c'.servers[i]);
    LogKeptByNode(cfg, c, c', i, c'.servers[i]);
  }

  lemma LogKeptBySetIndices(cfg: Config, c: Cluster, i: NodeId)
    requires Inv(cfg, c) && LogInv(cfg, c) && Enabled(cfg, c, SetIndices(i))
    ensures LogInv(cfg, Do(cfg, c, SetIndices(i)))
  {
    var s, c' := c.servers[i], Do(cfg, c, SetIndices(i));
    assert ServerLog(cfg, c.hist.elections, c.hist.termLogs, c.net.appends, i, s);
    LogKeptByNode(cfg, c, c', i, c'.servers[i]);
  }

  // ----- the end of a round -----

  lemma {:induction false} RepliesKeepIndices(cfg: Config, i: NodeId, t: Tally, rs: seq<RpcResult>)
    requires IndicesOk(t.node)
    requires t.node.nextIndex.Keys <= cfg.members - {i} && t.node.matchIndex.Keys <= cfg.members - {i}
    requires forall k :: 0 <= k < |rs| ==>
      rs[k].prevIndex + rs[k].sent <= |t.node.log| && rs[k].peer in cfg.members - {i}
    requires forall k :: 0 <= k < |rs| ==> rs[k].peer in t.node.nextIndex
    ensures var n := ProcessReplies(t, rs).node;
      && IndicesOk(n) && n.log == t.node.log
      && n.nextIndex.Keys <= cfg.members - {i} && n.matchIndex.Keys <= cfg.members - {i}
      && t.node.nextIndex.Keys <= n.nextIndex.Keys
    decreases |rs|
  {
    if rs != [] {
      RepliesKeepIndices(cfg, i, t, rs[..|rs| - 1]);
    }
  }

  lemma LeaderLogFacts(elections: Elections, tl: TermLogs, s: Slot)
    requires TermLogsOk(elections, tl) && StartLogs(elections, tl) && s in elections
    ensures Anchored(tl, LeaderLog(elections, tl, s)) && Below(LeaderLog(elections, tl, s), s.term + 1)
    ensures elections[s].startLog <= LeaderLog(elections, tl, s)
  {
    assert StartLog(elections, tl, s);
    if s.term in tl && tl[s.term].creator == s.leader {
      assert TermLogOk(elections, tl, s.term);
    }
  }

  lemma SentLogFacts(cfg: Config, elections: Elections, tl: TermLogs, m: AppendMsg)
    requires TermLogsOk(elections, tl) && StartLogs(elections, tl) && AppendOk(cfg, elections, tl, m)
    ensures Anchored(tl, m.log) && Below(m.log, m.req.term + 1)
  {
    var s := Slot(m.req.term, m.req.leader);
    LeaderLogFacts(elections, tl, s);
    AnchoredPrefix(tl, LeaderLog(elections, tl, s), |m.log|);
    assert m.log == LeaderLog(elections, tl, s)[..|m.log|];
  }

  /** The replies to a round are about the log it was sent with. */
  lemma RoundResultsFit(cfg: Config, appends: set<AppendMsg>, i: NodeId, s: Server, rs: seq<AppendReplyMsg>)
    requires s.thread.Round? && SentOk(appends, i, s)
    requires forall m :: m in appends ==> SentToPeer(cfg, m)
    requires forall k :: 0 <= k < |rs| ==> rs[k].msg in s.thread.sent
    ensures forall k :: 0 <= k < |rs| ==>
      && ResultsOf(rs)[k].prevIndex + ResultsOf(rs)[k].sent == |s.thread.began|
      && ResultsOf(rs)[k].peer in cfg.members - {i}
  {
    forall k | 0 <= k < |rs|
      ensures ResultsOf(rs)[k].prevIndex + ResultsOf(rs)[k].sent == |s.thread.began|
      ensures ResultsOf(rs)[k].peer in cfg.members - {i}
    {
      assert SentToPeer(cfg, rs[k].msg);
    }
  }

  lemma LeaderResultsFit(cfg: Config, c: Cluster, i: NodeId, rs: seq<AppendReplyMsg>)
    requires LogInv(cfg, c) && i in c.servers && c.servers[i].thread.Round?
    requires AnswersTo(c, c.servers[i].thread.sent, rs)
    ensures forall k :: 0 <= k < |rs| ==>
      && ResultsOf(rs)[k].prevIndex + ResultsOf(rs)[k].sent == |c.servers[i].thread.began|
      && ResultsOf(rs)[k].peer in cfg.members - {i}
  {
    assert ServerLog(cfg, c.hist.elections, c.hist.termLogs, c.net.appends, i, c.servers[i]);
    forall m | m in c.net.appends ensures SentToPeer(cfg, m) {
      assert AppendOk(cfg, c.hist.elections, c.hist.termLogs, m);
    }
    RoundResultsFit(cfg, c.net.appends, i, c.servers[i], rs);
  }

  lemma FinishRoundReplication(cfg: Config, appends: set<AppendMsg>, i: NodeId, s: Server, rs: seq<RpcResult>,
                               timedOut: bool)
    requires ReplicationOk(cfg, appends, i, s) && Shape(cfg, i, s) && s.thread.Round?
    requires forall k :: 0 <= k < |rs| ==>
               rs[k].prevIndex + rs[k].sent == |s.thread.began| && rs[k].peer in cfg.members - {i}
    ensures var n := FinishRound(s.node, rs, Quorum(cfg), timedOut, cfg.keepVote);
      ReplicationOk(cfg, appends, i, Server(n, Idle))
  {
    if s.node.role.Leader? {
      RepliesKeepIndices(cfg, i, Tally(s.node, 1, false), rs);
    }
  }

  lemma FinishRoundLog(cfg: Config, elections: Elections, tl: TermLogs, appends: set<AppendMsg>, i: NodeId,
                       s: Server, rs: seq<RpcResult>, timedOut: bool)
    requires ServerLog(cfg, elections, tl, appends, i, s) && Shape(cfg, i, s) && s.thread.Round?
    requires forall k :: 0 <= k < |rs| ==>
               rs[k].prevIndex + rs[k].sent == |s.thread.began| && rs[k].peer in cfg.members - {i}
    ensures var n := FinishRound(s.node, rs, Quorum(cfg), timedOut, cfg.keepVote);
      ServerLog(cfg, elections, tl, appends, i, Server(n, Idle)) && n.log == s.node.log && s.node.term <= n.term
  {
    FinishRoundReplication(cfg, appends, i, s, rs, timedOut);
    if s.node.role.Leader? {
      RepliesLeaveVote(Tally(s.node, 1, false), rs);
    }
  }

  lemma LogKeptByEndRound(cfg: Config, c: Cluster, i: NodeId, rs: seq<AppendReplyMsg>, timedOut: bool)
    requires Inv(cfg, c) && LogInv(cfg, c) && Enabled(cfg, c, EndRound(i, rs, timedOut))
    ensures LogInv(cfg, DoEndRound(cfg, c, i, rs, timedOut))
  {
    var s, c' := c.servers[i], DoEndRound(cfg, c, i, rs, timedOut);
    assert ServerLog(cfg, c.hist.elections, c.hist.termLogs, c.net.appends, i, s);
    assert ServerOk(cfg, c.hist.ballots, c.hist.elections, i, s);
    LeaderResultsFit(cfg, c, i, rs);
    FinishRoundLog(cfg, c.hist.elections, c.hist.termLogs, c.net.appends, i, s, ResultsOf(rs), timedOut);
    LogKeptByNode(cfg, c, c', i, c'.servers[i]);
  }

  // ----- accepting entries -----

  /** What an AppendEntries request does to a follower's log: rejected, nothing; accepted, the
      log keeps all it had if that extends the sender's log, and else becomes the sender's log. */
  lemma HandleAppendLog(tl: TermLogs, n: NodeState, m: AppendMsg)
    requires Anchored(tl, n.log) && Anchored(tl, m.log) && WellBuilt(m)
    ensures var (n', reply) := HandleAppendEntries(n, m.req);
      && (reply.success ==> n'.log == (if m.log <= n.log then n.log else m.log) && m.log <= n'.log)
      && (reply.success ==> n'.term == reply.term == m.req.term && n'.role.Follower?)
      && (!reply.success ==> n'.log == n.log)
      && n'.nextIndex == n.nextIndex && n'.matchIndex == n.matchIndex && n.term <= n'.term
      && (n' == n || n'.role.Follower?)
  {
    var at := m.req.prevIndex;
    if m.req.term >= n.term && PrevMatches(n.log, m.req) {
      if at > 0 {
        Matching2(tl, n.log, m.log, at - 1);
      }
      AnchoredMatch(tl, n.log, m.log);
      MergeMatching(n.log, at, m.log);
    }
  }

  lemma LogKeptByHandleAppend(cfg: Config, c: Cluster, m: AppendMsg)
    requires Inv(cfg, c) && LogInv(cfg, c) && Enabled(cfg, c, HandleAppend(m))
    ensures LogInv(cfg, DoHandleAppend(c, m))
  {
    var s, c' := c.servers[m.to], DoHandleAppend(c, m);
    var elections, tl := c.hist.elections, c.hist.termLogs;
    assert ServerLog(cfg, elections, tl, c.net.appends, m.to, s);
    assert AppendOk(cfg, elections, tl, m);
    SentLogFacts(cfg, elections, tl, m);
    HandleAppendLog(tl, s.node, m);
    assert c'.servers[m.to].node.log != s.node.log ==> OtherLeader(elections, m.req.term, m.to);
    LogKeptByNode(cfg, c, c', m.to, c'.servers[m.to]);
  }

  // ----- sending a round -----

  lemma ServerLogMoreAppends(cfg: Config, elections: Elections, tl: TermLogs, appends: set<AppendMsg>,
                             more: set<AppendMsg>, servers: Servers)
    requires ServerLogs(cfg, elections, tl, appends, servers) && appends <= more
    ensures ServerLogs(cfg, elections, tl, more, servers)
  {
    forall i | i in servers ensures ServerLog(cfg, elections, tl, more, i, servers[i]) {
      assert ServerLog(cfg, elections, tl, appends, i, servers[i]);
    }
  }

  /** Every request of a round looks into the leader's log, and shows it from there on. */
  lemma RoundIsWellBuilt(cfg: Config, elections: Elections, tl: TermLogs, n: NodeState, i: NodeId, p: NodeId)
    requires n.term >= 1 && Slot(n.term, i) in elections && n.log == LeaderLog(elections, tl, Slot(n.term, i))
    requires elections[Slot(n.term, i)].startLog <= n.log
    requires IndicesOk(n) && p in cfg.members - {i}
    ensures AppendOk(cfg, elections, tl, AppendMsg(p, BuildAppend(n, i, p), n.log))
    ensures 1 <= NextFor(n, p) <= |n.log| + 1
  {
  }

  lemma LogKeptByStartRound(cfg: Config, c: Cluster, i: NodeId)
    requires Inv(cfg, c) && LogInv(cfg, c) && Enabled(cfg, c, StartRound(i))
    ensures LogInv(cfg, DoStartRound(cfg, c, i))
  {
    var s, c' := c.servers[i], DoStartRound(cfg, c, i);
    var elections, tl, n := c.hist.elections, c.hist.termLogs, c'.servers[i].node;
    assert ServerLog(cfg, elections, tl, c.net.appends, i, s);
    assert ServerOk(cfg, c.hist.ballots, elections, i, s);
    LeaderLogFacts(elections, tl, Slot(n.term, i));
    forall m | m in c'.net.appends ensures AppendOk(cfg, elections, tl, m) {
      if m in c.net.appends {
        assert AppendOk(cfg, elections, tl, m);
      } else {
        RoundIsWellBuilt(cfg, elections, tl, n, i, m.to);
      }
    }
    ServerLogMoreAppends(cfg, elections, tl, c.net.appends, c'.net.appends, c.servers);
    ServerLogsAfter(cfg, elections, tl, c'.net.appends, c.servers, i, c'.servers[i]);
    CreatorsKeepAfter(elections, tl, c.servers, i, c'.servers[i]);
  }

  // ----- voting -----

  lemma LogKeptByBallot(cfg: Config, c: Cluster, c': Cluster, b: Ballot, s: Server)
    requires Inv(cfg, c) && LogInv(cfg, c) && b.voter in c.servers
    requires c'.servers == c.servers[b.voter := s] && c'.net.appends == c.net.appends
    requires c'.hist == c.hist.(ballots := c.hist.ballots + {b})
    requires BallotLog(c.hist.elections, c.hist.termLogs, b)
    requires ServerLog(cfg, c.hist.elections, c.hist.termLogs, c.net.appends, b.voter, s)
    requires c.servers[b.voter].node.term <= s.node.term && s.node.log == c.servers[b.voter].node.log
    ensures LogInv(cfg, c')
  {
    LogKeptByNode(cfg, c, c'.(hist := c.hist), b.voter, s);
    forall a | a in c'.hist.ballots ensures BallotLog(c.hist.elections, c.hist.termLogs, a) {
    }
  }

  lemma LogKeptByStartElection(cfg: Config, c: Cluster, i: NodeId)
    requires Inv(cfg, c) && LogInv(cfg, c) && Enabled(cfg, c, StartElection(i))
    ensures LogInv(cfg, DoStartElection(c, i))
  {
    var s, c' := c.servers[i], DoStartElection(c, i);
    var n := c'.servers[i].node;
    assert ServerLog(cfg, c.hist.elections, c.hist.termLogs, c.net.appends, i, s);
    LogKeptByBallot(cfg, c, c', Ballot(i, n.term, i, n.log), c'.servers[i]);
  }

  /** A deposed creator still holds its entries when it votes, unless another leader took them. */
  lemma VoteShowsCreation(cfg: Config, c: Cluster, b: Ballot)
    requires Inv(cfg, c) && LogInv(cfg, c) && b.voter in c.servers
    requires b.log == c.servers[b.voter].node.log && c.servers[b.voter].node.term <= b.term
    ensures BallotLog(c.hist.elections, c.hist.termLogs, b)
  {
    var elections, tl, i := c.hist.elections, c.hist.termLogs, b.voter;
    assert ServerLog(cfg, elections, tl, c.net.appends, i, c.servers[i]);
    if b.term in tl && tl[b.term].creator == i && LastTerm(b.log) != b.term {
      assert TermLogOk(elections, tl, b.term);
      assert WinnerMovesOn(c.servers, Slot(b.term, i));
      assert CreatorKeeps(elections, tl, c.servers, b.term);
    }
  }

  lemma LogKeptByHandleVote(cfg: Config, c: Cluster, m: VoteMsg)
    requires Inv(cfg, c) && LogInv(cfg, c) && Enabled(cfg, c, HandleVote(m))
    ensures LogInv(cfg, DoHandleVote(c, m))
  {
    var s, c' := c.servers[m.to], DoHandleVote(c, m);
    var b := Ballot(m.to, m.req.term, m.req.candidate, s.node.log);
    assert VoteMsgOk(cfg, c.servers, m);
    assert ServerLog(cfg, c.hist.elections, c.hist.termLogs, c.net.appends, m.to, s);
    RequestVoteFacts(cfg, s.node, m.req, m.to);
    ServerLogDemoted(cfg, c.hist.elections, c.hist.termLogs, c.net.appends, m.to, s, c'.servers[m.to]);
    if HandleRequestVote(s.node, m.req).1.granted {
      VoteShowsCreation(cfg, c, b);
      LogKeptByBallot(cfg, c, c', b, c'.servers[m.to]);
    } else {
      LogKeptByNode(cfg, c, c', m.to, c'.servers[m.to]);
    }
  }

  // ----- winning -----

  /** A term in which entries exist elects no further leader: the creator refused it its vote,
      for its own log was newer. */
  lemma NoEntriesBeforeElection(cfg: Config, c: Cluster, i: NodeId)
    requires Inv(cfg, c) && LogInv(cfg, c) && i in c.servers
    requires CanWin(cfg, c.hist.ballots, c.hist.elections, i, c.servers[i])
    requires Inv(cfg, DoEndElection(cfg, c, i))
    ensures c.servers[i].node.term !in c.hist.termLogs
  {
    var s, t, tl := c.servers[i], c.servers[i].node.term, c.hist.termLogs;
    var h' := DoEndElection(cfg, c, i).hist;
    if t in tl {
      var first, second := Slot(t, tl[t].creator), Slot(t, i);
      assert TermLogOk(c.hist.elections, tl, t);
      assert OrderOk(c.hist.elections, first);
      assert Rivals(h'.elections, first, second);
      SharedVoter(cfg, h'.ballots, h'.elections, first, second);
      var v := tl[t].creator;
      assert v in h'.elections[first].voterLogs.Keys * h'.elections[second].voterLogs.Keys;
      assert ElectionOk(cfg, h'.ballots, second, h'.elections[second]);
      assert BallotLog(c.hist.elections, tl, Ballot(v, t, i, h'.elections[second].voterLogs[v]));
      assert ServerLog(cfg, c.hist.elections, tl, c.net.appends, i, s);
      if OtherLeader(c.hist.elections, t, v) {
        var l :| l != v && Slot(t, l) in c.hist.elections;
        AtMostTwo(cfg, h'.ballots, h'.elections, first, second, Slot(t, l));
      }
      assert false;
    }
  }

  lemma WinTermLogs(elections: Elections, tl: TermLogs, slot: Slot, e: Election)
    requires TermLogsOk(elections, tl) && slot !in elections && slot.term !in tl
    ensures TermLogsOk(elections[slot := e], tl)
  {
    var elections' := elections[slot := e];
    forall t | t in tl ensures TermLogOk(elections', tl, t) && CreatorIsLast(elections', tl, t) {
      assert TermLogOk(elections, tl, t) && CreatorIsLast(elections, tl, t);
    }
  }

  lemma WinCreators(elections: Elections, tl: TermLogs, servers: Servers, ballots: set<Ballot>, slot: Slot, e: Election)
    requires CreatorsKeep(elections, tl, servers) && BallotLogs(elections, tl, ballots)
    ensures CreatorsKeep(elections[slot := e], tl, servers) && BallotLogs(elections[slot := e], tl, ballots)
  {
    var elections' := elections[slot := e];
    forall t | t in tl ensures CreatorKeeps(elections', tl, servers, t) {
      assert CreatorKeeps(elections, tl, servers, t);
      OtherLeaderStays(elections, slot, e, t, tl[t].creator);
    }
    forall b | b in ballots ensures BallotLog(elections', tl, b) {
      assert BallotLog(elections, tl, b);
      OtherLeaderStays(elections, slot, e, b.term, b.voter);
    }
  }

  lemma OtherLeaderStays(elections: Elections, slot: Slot, e: Election, t: Term, i: NodeId)
    ensures OtherLeader(elections, t, i) ==> OtherLeader(elections[slot := e], t, i)
  {
    if OtherLeader(elections, t, i) {
      var l :| l != i && Slot(t, l) in elections;
      assert Slot(t, l) in elections[slot := e];
    }
  }

  lemma WinLogs(cfg: Config, elections: Elections, tl: TermLogs, appends: set<AppendMsg>, servers: Servers,
                slot: Slot, e: Election)
    requires StartLogs(elections, tl) && AppendsOk(cfg, elections, tl, appends)
    requires ServerLogs(cfg, elections, tl, appends, servers)
    requires slot !in elections && slot.term !in tl && Below(e.startLog, slot.term) && Anchored(tl, e.startLog)
    requires forall j :: j in servers && servers[j].node.role.Leader? ==> Slot(servers[j].node.term, j) in elections
    ensures var elections' := elections[slot := e];
      && StartLogs(elections', tl) && AppendsOk(cfg, elections', tl, appends)
      && ServerLogs(cfg, elections', tl, appends, servers)
  {
    var elections' := elections[slot := e];
    forall s | s in elections' ensures StartLog(elections', tl, s) {
      assert s != slot ==> StartLog(elections, tl, s);
    }
    forall m | m in appends ensures AppendOk(cfg, elections', tl, m) {
      assert AppendOk(cfg, elections, tl, m);
    }
    forall j | j in servers ensures ServerLog(cfg, elections', tl, appends, j, servers[j]) {
      assert ServerLog(cfg, elections, tl, appends, j, servers[j]);
    }
  }

  lemma LogKeptByWin(cfg: Config, c: Cluster, i: NodeId)
    requires Inv(cfg, c) && LogInv(cfg, c) && i in c.servers
    requires CanWin(cfg, c.hist.ballots, c.hist.elections, i, c.servers[i])
    requires c.servers[i].node.term !in c.hist.termLogs
    ensures LogInv(cfg, DoEndElection(cfg, c, i))
  {
    var s, c' := c.servers[i], DoEndElection(cfg, c, i);
    var slot, e := Slot(s.node.term, i), WonBy(c.hist.elections, i, s);
    assert c'.servers == c.servers[i := Server(s.node.(role := Leader), Won)];
    assert c'.hist == c.hist.(elections := c.hist.elections[slot := e]);
    assert ServerLog(cfg, c.hist.elections, c.hist.termLogs, c.net.appends, i, s);
    forall j | j in c.servers && c.servers[j].node.role.Leader?
      ensures Slot(c.servers[j].node.term, j) in c.hist.elections
    {
      assert ServerOk(cfg, c.hist.ballots, c.hist.elections, j, c.servers[j]);
    }
    WinTermLogs(c.hist.elections, c.hist.termLogs, slot, e);
    CreatorsKeepAfter(c.hist.elections, c.hist.termLogs, c.servers, i, c'.servers[i]);
    WinCreators(c.hist.elections, c.hist.termLogs, c'.servers, c.hist.ballots, slot, e);
    WinLogs(cfg, c.hist.elections, c.hist.termLogs, c.net.appends, c.servers, slot, e);
    ServerLogsAfter(cfg, c'.hist.elections, c.hist.termLogs, c.net.appends, c.servers, i, c'.servers[i]);
  }

  lemma LogKeptByEndElection(cfg: Config, c: Cluster, i: NodeId)
    requires Inv(cfg, c) && LogInv(cfg, c) && Enabled(cfg, c, EndElection(i))
    requires Inv(cfg, DoEndElection(cfg, c, i))
    ensures LogInv(cfg, DoEndElection(cfg, c, i))
  {
    var s, c' := c.servers[i], DoEndElection(cfg, c, i);
    assert ServerOk(cfg, c.hist.ballots, c.hist.elections, i, s);
    assert ServerLog(cfg, c.hist.elections, c.hist.termLogs, c.net.appends, i, s);
    if c'.servers[i].node.role.Leader? {
      assert Slot(s.node.term, i) in c.hist.elections ==> WinnerMovesOn(c.servers, Slot(s.node.term, i));
      NoEntriesBeforeElection(cfg, c, i);
      LogKeptByWin(cfg, c, i);
    } else {
      LogKeptByNode(cfg, c, c', i, c'.servers[i]);
    }
  }

  // ----- creating entries -----

  ghost predicate Grows(tl: TermLogs, tl': TermLogs) {
    forall t :: t in tl ==> t in tl' && tl'[t].creator == tl[t].creator && tl[t].log <= tl'[t].log
  }

  lemma AnchoredGrows(tl: TermLogs, tl': TermLogs, log: Log)
    requires Grows(tl, tl') && Anchored(tl, log)
    ensures Anchored(tl', log)
  {
    forall k | 0 <= k < |log| ensures AnchoredAt(tl', log, k) {
      assert AnchoredAt(tl, log, k);
    }
  }

  /** A leader that has voted for another leader of its term is no longer leader. */
  lemma LeaderIsLast(cfg: Config, c: Cluster, i: NodeId, l: NodeId)
    requires Inv(cfg, c) && i in c.servers && c.servers[i].node.role.Leader? && l != i
    requires Slot(c.servers[i].node.term, l) in c.hist.elections
    ensures Slot(c.servers[i].node.term, i) in c.hist.elections
    ensures c.hist.elections[Slot(c.servers[i].node.term, l)].order < c.hist.elections[Slot(c.servers[i].node.term,
      i)].order
  {
    var t, elections := c.servers[i].node.term, c.hist.elections;
    var mine, other := Slot(t, i), Slot(t, l);
    assert ServerOk(cfg, c.hist.ballots, elections, i, c.servers[i]);
    assert Apart(elections, mine, other);
    if elections[mine].order < elections[other].order {
      SharedVoter(cfg, c.hist.ballots, elections, mine, other);
      assert i in elections[mine].voterLogs.Keys * elections[other].voterLogs.Keys;
      assert ElectionOk(cfg, c.hist.ballots, other, elections[other]);
      CandidateVotedOnlyForItself(cfg, c.hist.ballots, elections, c.servers, Ballot(i, t, l,
        elections[other].voterLogs[i]));
    }
  }

  /** Only one node creates entries in a term: the leader about to append is the creator so far. */
  lemma LeaderIsCreator(cfg: Config, c: Cluster, i: NodeId)
    requires Inv(cfg, c) && LogInv(cfg, c) && i in c.servers && c.servers[i].node.role.Leader?
    ensures var t := c.servers[i].node.term;
      t in c.hist.termLogs ==> c.hist.termLogs[t].creator == i && c.hist.termLogs[t].log == c.servers[i].node.log
  {
    var t, tl := c.servers[i].node.term, c.hist.termLogs;
    assert ServerLog(cfg, c.hist.elections, tl, c.net.appends, i, c.servers[i]);
    if t in tl && tl[t].creator != i {
      assert CreatorIsLast(c.hist.elections, tl, t);
      LeaderIsLast(cfg, c, i, tl[t].creator);
    }
  }

  /** `tl'` is `tl` after leader `i` of term `t` appended to `log`. */
  ghost predicate Creation(elections: Elections, tl: TermLogs, tl': TermLogs, t: Term, i: NodeId, log: Log) {
    && (t in tl ==> tl[t].creator == i && tl[t].log == log)
    && Slot(t, i) in elections && log == LeaderLog(elections, tl, Slot(t, i))
    && exists command :: tl' == tl[t := TermLog(i, log + [Entry(t, command)])]
  }

  lemma CreationGrows(elections: Elections, tl: TermLogs, tl': TermLogs, t: Term, i: NodeId, log: Log)
    requires Creation(elections, tl, tl', t, i, log) && Anchored(tl, log)
    ensures Grows(tl, tl') && t in tl' && Anchored(tl', tl'[t].log)
    ensures forall s :: s in elections ==> LeaderLog(elections, tl, s) <= LeaderLog(elections, tl', s)
    ensures forall s :: s != Slot(t, i) ==> LeaderLog(elections, tl, s) == LeaderLog(elections, tl', s)
  {
    AnchoredGrows(tl, tl', log);
    var log' := tl'[t].log;
    forall k | 0 <= k < |log'| ensures AnchoredAt(tl', log', k) {
      if k < |log| {
        assert AnchoredAt(tl', log, k);
        assert log'[..k + 1] == log[..k + 1];
      } else {
        assert log'[..k + 1] == log';
      }
    }
  }

  lemma CreateTermLogs(elections: Elections, tl: TermLogs, tl': TermLogs, t: Term, i: NodeId, log: Log)
    requires TermLogsOk(elections, tl) && StartLogs(elections, tl) && Anchored(tl, log)
    requires Creation(elections, tl, tl', t, i, log)
    requires forall l :: l != i && Slot(t, l) in elections ==> elections[Slot(t, l)].order < elections[Slot(t, i)].order
    ensures TermLogsOk(elections, tl') && StartLogs(elections, tl')
  {
    CreationGrows(elections, tl, tl', t, i, log);
    forall u | u in tl' ensures TermLogOk(elections, tl', u) && CreatorIsLast(elections, tl', u) {
      if u in tl {
        assert TermLogOk(elections, tl, u) && CreatorIsLast(elections, tl, u);
      }
      if u != t {
        AnchoredGrows(tl, tl', tl[u].log);
      }
    }
    forall s | s in elections ensures StartLog(elections, tl', s) {
      assert StartLog(elections, tl, s);
      AnchoredGrows(tl, tl', elections[s].startLog);
    }
  }

  lemma CreateBallotsAndAppends(cfg: Config, elections: Elections, tl: TermLogs, tl': TermLogs, t: Term, i: NodeId,
                                log: Log, ballots: set<Ballot>, appends: set<AppendMsg>)
    requires Creation(elections, tl, tl', t, i, log) && Anchored(tl, log)
    requires BallotLogs(elections, tl, ballots) && AppendsOk(cfg, elections, tl, appends)
    requires forall b :: b in ballots && b.voter == i && b.term == t ==> b.candidate == i
    ensures BallotLogs(elections, tl', ballots) && AppendsOk(cfg, elections, tl', appends)
  {
    CreationGrows(elections, tl, tl', t, i, log);
    forall b | b in ballots ensures BallotLog(elections, tl', b) {
      assert BallotLog(elections, tl, b);
      AnchoredGrows(tl, tl', b.log);
    }
    forall m | m in appends ensures AppendOk(cfg, elections, tl', m) {
      assert AppendOk(cfg, elections, tl, m);
    }
  }

  lemma CreateServers(cfg: Config, elections: Elections, tl: TermLogs, tl': TermLogs, t: Term, i: NodeId, log: Log,
                      appends: set<AppendMsg>, servers: Servers)
    requires Creation(elections, tl, tl', t, i, log) && Anchored(tl, log)
    requires ServerLogs(cfg, elections, tl, appends, servers) && i in servers
    ensures forall j :: j in servers && j != i ==> ServerLog(cfg, elections, tl', appends, j, servers[j])
  {
    CreationGrows(elections, tl, tl', t, i, log);
    forall j | j in servers && j != i ensures ServerLog(cfg, elections, tl', appends, j, servers[j]) {
      assert ServerLog(cfg, elections, tl, appends, j, servers[j]);
      AnchoredGrows(tl, tl', servers[j].node.log);
    }
  }

  lemma CreateKeeps(elections: Elections, tl: TermLogs, tl': TermLogs, t: Term, i: NodeId, log: Log,
                    servers: Servers, s: Server)
    requires Creation(elections, tl, tl', t, i, log)
    requires CreatorsKeep(elections, tl, servers) && i in servers
    requires s.node.term == t && s.node.log == tl'[t].log
    ensures CreatorsKeep(elections, tl', servers[i := s])
  {
    forall u | u in tl' ensures CreatorKeeps(elections, tl', servers[i := s], u) {
      if u != t {
        assert CreatorKeeps(elections, tl, servers, u);
      }
    }
  }

  lemma LogKeptByPropose(cfg: Config, c: Cluster, i: NodeId, command: Bytes)
    requires Inv(cfg, c) && LogInv(cfg, c) && Enabled(cfg, c, ProposeCommand(i, command))
    ensures LogInv(cfg, DoPropose(c, i, command))
  {
    var s, c' := c.servers[i], DoPropose(c, i, command);
    if s.node.role.Leader? {
      var elections, tl, tl', t, log := c.hist.elections, c.hist.termLogs, c'.hist.termLogs, s.node.term, s.node.log;
      assert ServerLog(cfg, elections, tl, c.net.appends, i, s);
      assert ServerOk(cfg, c.hist.ballots, elections, i, s);
      LeaderIsCreator(cfg, c, i);
      assert tl' == tl[t := TermLog(i, log + [Entry(t, command)])];
      assert Creation(elections, tl, tl', t, i, log);
      CreationGrows(elections, tl, tl', t, i, log);
      forall l | l != i && Slot(t, l) in elections ensures elections[Slot(t, l)].order < elections[Slot(t, i)].order {
        LeaderIsLast(cfg, c, i, l);
      }
      forall b | b in c.hist.ballots && b.voter == i && b.term == t ensures b.candidate == i {
        CandidateVotedOnlyForItself(cfg, c.hist.ballots, elections, c.servers, b);
      }
      CreateTermLogs(elections, tl, tl', t, i, log);
      CreateBallotsAndAppends(cfg, elections, tl, tl', t, i, log, c.hist.ballots, c.net.appends);
      CreateKeeps(elections, tl, tl', t, i, log, c.servers, c'.servers[i]);
      CreateServers(cfg, elections, tl, tl', t, i, log, c.net.appends, c.servers);
      forall j | j in c'.servers ensures ServerLog(cfg, elections, tl', c.net.appends, j, c'.servers[j]) {
        assert j != i ==> ServerLog(cfg, elections, tl', c.net.appends, j, c.servers[j]);
      }
    }
  }

  lemma LogKeptByStep(cfg: Config, c: Cluster, a: Action)
    requires Inv(cfg, c) && LogInv(cfg, c) && Inv(cfg, Step(cfg, c, a)) && Timely(c, a)
    ensures LogInv(cfg, Step(cfg, c, a))
  {
    if Enabled(cfg, c, a) {
      match a {
        case StartElection(i) => LogKeptByStartElection(cfg, c, i);
        case AskVote(i, to, req) =>
        case HandleVote(m) => LogKeptByHandleVote(cfg, c, m);
        case CountVote(i, r) => LogKeptByCountVote(cfg, c, i, r);
        case Adopt(i) => LogKeptByAdopt(cfg, c, i);
        case EndElection(i) => LogKeptByEndElection(cfg, c, i);
        case SetIndices(i) => LogKeptBySetIndices(cfg, c, i);
        case StartRound(i) => LogKeptByStartRound(cfg, c, i);
        case HandleAppend(m) => LogKeptByHandleAppend(cfg, c, m);
        case EndRound(i, rs, timedOut) => LogKeptByEndRound(cfg, c, i, rs, timedOut);
        case ProposeCommand(i, command) => LogKeptByPropose(cfg, c, i, command);
      }
    }
  }

  lemma {:induction false} LogsAlways(cfg: Config, run: seq<Action>)
    requires Prompt(cfg, run)
    ensures Inv(cfg, After(cfg, run)) && LogInv(cfg, After(cfg, run))
    decreases |run|
  {
    Always(cfg, run);
    if run != [] {
      LogsAlways(cfg, run[..|run| - 1]);
      LogKeptByStep(cfg, After(cfg, run[..|run| - 1]), run[|run| - 1]);
    }
  }
}
