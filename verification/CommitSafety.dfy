/** Committed entries (sections 5.4.2 and 5.4.3 of the Raft paper): they are in the log of every
    later leader, and no node ever applies a different command at the same index.

    All of it rests on one fact about elections, `UniqueLeaders`: it holds in the runs that are
    `Peaceful`, and `ElectionSafety` shows that every prompt run of a `Steady` cluster is. */
module CommitSafety {
  import opened RaftTypes
  import opened RaftSteps
  import opened Cluster
  import opened ElectionSafety
  import opened LogSafety

  // ----- what becomes of an acknowledged log -----

  /** A leader of a term in (after, upTo] started without all of `log`. */
  ghost predicate Overwritten(elections: Elections, after: Term, log: Log, upTo: Term) {
    exists s :: s in elections && after < s.term <= upTo && !(log <= elections[s].startLog)
  }

  /** `held` still begins with `log`, acknowledged in term `since`, unless a leader came that lacked it. */
  ghost predicate Kept(elections: Elections, since: Term, log: Log, held: Log, upTo: Term) {
    log <= held || Overwritten(elections, since, log, upTo)
  }

  ghost predicate AckOk(elections: Elections, tl: TermLogs, servers: Servers, a: Ack) {
    && a.slot in elections && a.log <= LeaderLog(elections, tl, a.slot)
    && a.node in servers && a.slot.term <= servers[a.node].node.term
    && AckKept(elections, a, servers[a.node].node.log, servers[a.node].node.term)
  }

  ghost predicate AckKept(elections: Elections, a: Ack, held: Log, upTo: Term) {
    forall log {:trigger Kept(elections, a.slot.term, log, held, upTo)} :: log <= a.log ==>
      Kept(elections, a.slot.term, log, held, upTo)
  }

  ghost predicate AcksOk(elections: Elections, tl: TermLogs, servers: Servers, acks: set<Ack>) {
    forall a {:trigger AckOk(elections, tl, servers, a)} :: a in acks ==> AckOk(elections, tl, servers, a)
  }

  ghost predicate Decided(elections: Elections, t: Term) {
    exists s :: s in elections && s.term == t
  }

  /** Who voted before the term had a leader voted with what it had acknowledged in earlier terms. */
  ghost predicate BallotAck(elections: Elections, b: Ballot, a: Ack) {
    b.voter == a.node && a.slot.term < b.term ==>
      AckKept(elections, a, b.log, b.term - 1) || Decided(elections, b.term)
  }

  ghost predicate BallotAcks(elections: Elections, ballots: set<Ballot>, acks: set<Ack>) {
    forall b, a {:trigger BallotAck(elections, b, a)} :: b in ballots && a in acks ==> BallotAck(elections, b, a)
  }

  ghost predicate ElectionAck(elections: Elections, s: Slot, a: Ack)
    requires s in elections
  {
    a.node in elections[s].voterLogs && a.slot.term < s.term ==>
      AckKept(elections, a, elections[s].voterLogs[a.node], s.term - 1)
  }

  ghost predicate ElectionAcks(elections: Elections, acks: set<Ack>) {
    forall s, a {:trigger ElectionAck(elections, s, a)} :: s in elections && a in acks ==> ElectionAck(elections, s, a)
  }

  // ----- the leader's books -----

  ghost predicate AppendReplyOk(appends: set<AppendMsg>, acks: set<Ack>, r: AppendReplyMsg) {
    && r.msg in appends
    && (r.reply.success ==>
          Ack(r.msg.to, Slot(r.msg.req.term, r.msg.req.leader), r.msg.log) in acks)
  }

  ghost predicate AppendRepliesOk(appends: set<AppendMsg>, replies: set<AppendReplyMsg>, acks: set<Ack>) {
    forall r {:trigger AppendReplyOk(appends, acks, r)} :: r in replies ==> AppendReplyOk(appends, acks, r)
  }

  /** The creator of a term's entries holds them all. */
  ghost predicate OwnAcks(tl: TermLogs, acks: set<Ack>) {
    forall t :: t in tl ==> Ack(tl[t].creator, Slot(t, tl[t].creator), tl[t].log) in acks
  }

  /** Match index soundness: each peer acknowledged, in this term, that much of the leader's log. */
  ghost predicate MatchOk(acks: set<Ack>, i: NodeId, n: NodeState) {
    forall p :: p in n.matchIndex ==>
      && n.matchIndex[p] <= |n.log|
      && (n.matchIndex[p] > 0 ==> Ack(p, Slot(n.term, i), n.log[..n.matchIndex[p]]) in acks)
  }

  // ----- commits -----

  ghost predicate Acked(acks: set<Ack>, slot: Slot, log: Log, q: NodeId) {
    exists a :: a in acks && a.node == q && a.slot == slot && log <= a.log
  }

  /** The log ends with an entry of the leader's own term and is stored on a majority. */
  ghost predicate CommitOk(cfg: Config, elections: Elections, tl: TermLogs, acks: set<Ack>, k: Commit) {
    && k.slot in elections && k.log <= LeaderLog(elections, tl, k.slot)
    && k.log != [] && LastTerm(k.log) == k.slot.term
    && k.quorum <= cfg.members && |k.quorum| >= Quorum(cfg)
    && forall q :: q in k.quorum ==> Acked(acks, k.slot, k.log, q)
  }

  ghost predicate CommitsOk(cfg: Config, elections: Elections, tl: TermLogs, acks: set<Ack>, commits: set<Commit>) {
    forall k {:trigger CommitOk(cfg, elections, tl, acks, k)} :: k in commits ==> CommitOk(cfg, elections, tl, acks, k)
  }

  /** `log` is part of what a leader of a term up to `t` committed. */
  ghost predicate Covered(commits: set<Commit>, t: Term, log: Log) {
    log == [] || exists k :: k in commits && k.slot.term <= t && log <= k.log
  }

  /** The commit index lies inside the log, and what was applied is exactly the commands of the
      committed entries, each once and in order. */
  ghost predicate AppliesCommitted(n: NodeState) {
    n.lastApplied == n.commitIndex <= |n.log| && n.applied == Results(n.log, 0, n.commitIndex)
  }

  ghost predicate CommitIndexOk(commits: set<Commit>, n: NodeState) {
    AppliesCommitted(n) && Covered(commits, n.term, n.log[..n.commitIndex])
  }

  ghost predicate ServerCommit(acks: set<Ack>, commits: set<Commit>, i: NodeId, s: Server) {
    && CommitIndexOk(commits, s.node)
    && (s.node.role.Leader? && !s.thread.Won? ==> MatchOk(acks, i, s.node))
  }

  ghost predicate ServerCommits(acks: set<Ack>, commits: set<Commit>, servers: Servers) {
    forall i {:trigger ServerCommit(acks, commits, i, servers[i])} :: i in servers ==>
      ServerCommit(acks, commits, i, servers[i])
  }

  /** No request announces a commit index beyond the log it was built from. */
  ghost predicate AppendCommit(commits: set<Commit>, m: AppendMsg) {
    m.req.leaderCommit <= |m.log| && Covered(commits, m.req.term, m.log[..m.req.leaderCommit])
  }

  ghost predicate AppendCommits(commits: set<Commit>, appends: set<AppendMsg>) {
    forall m {:trigger AppendCommit(commits, m)} :: m in appends ==> AppendCommit(commits, m)
  }

  ghost predicate CommitInv(cfg: Config, c: Cluster) {
    && AcksOk(c.hist.elections, c.hist.termLogs, c.servers, c.hist.acks)
    && BallotAcks(c.hist.elections, c.hist.ballots, c.hist.acks)
    && ElectionAcks(c.hist.elections, c.hist.acks)
    && AppendRepliesOk(c.net.appends, c.net.appendReplies, c.hist.acks)
    && OwnAcks(c.hist.termLogs, c.hist.acks)
    && CommitsOk(cfg, c.hist.elections, c.hist.termLogs, c.hist.acks, c.hist.commits)
    && ServerCommits(c.hist.acks, c.hist.commits, c.servers)
    && AppendCommits(c.hist.commits, c.net.appends)
  }

  // ----- leader completeness -----

  /** Along a log, terms never fall. */
  lemma AnchoredSorted(elections: Elections, tl: TermLogs, log: Log, j: nat, k: nat)
    requires TermLogsOk(elections, tl) && StartLogs(elections, tl) && Anchored(tl, log)
    requires j <= k < |log|
    ensures log[j].term <= log[k].term
  {
    assert AnchoredAt(tl, log, k);
    var t := log[k].term;
    assert TermLogOk(elections, tl, t);
    assert StartLog(elections, tl, Slot(t, tl[t].creator));
    assert log[j] == log[..k + 1][j] == tl[t].log[j];
  }

  /** The election restriction at work: a winner at least as up to date as a voter that holds the
      committed `log` holds it too, given that the leaders in between do. */
  lemma UpToDateHolds(elections: Elections, tl: TermLogs, log: Log, since: Term, x: Log, p: Log, below: Term)
    requires TermLogsOk(elections, tl) && StartLogs(elections, tl) && Anchored(tl, x) && Anchored(tl, p)
    requires log != [] && LastTerm(log) == since && log <= p && since >= 1
    requires Below(x, below) && UpToDate(LastTerm(x), |x|, p)
    requires forall s :: s in elections && since < s.term < below ==> log <= elections[s].startLog
    ensures log <= x
  {
    AnchoredSorted(elections, tl, p, |log| - 1, |p| - 1);
    assert log[|log| - 1] == p[|log| - 1];
    assert AnchoredAt(tl, p, |p| - 1) && p[..|p|] == p;
    var t := LastTerm(x);
    assert AnchoredAt(tl, x, |x| - 1) && x[..|x|] == x;
    if t > LastTerm(p) {
      var s := Slot(t, tl[t].creator);
      assert TermLogOk(elections, tl, t);
      assert StartLog(elections, tl, s);
      assert log <= elections[s].startLog;
      assert |x| > |elections[s].startLog|;
    }
  }

  /** Leader completeness: a log that ends in its leader's term and was acknowledged by a
      majority begins the log of every leader of a later term. */
  lemma {:induction false} LeaderCompleteness(cfg: Config, c: Cluster, k: Commit, s: Slot)
    requires Inv(cfg, c) && LogInv(cfg, c) && ElectionAcks(c.hist.elections, c.hist.acks)
    requires CommitOk(cfg, c.hist.elections, c.hist.termLogs, c.hist.acks, k)
    requires s in c.hist.elections && k.slot.term < s.term
    ensures k.log <= c.hist.elections[s].startLog
    decreases s.term
  {
    var elections, tl, e := c.hist.elections, c.hist.termLogs, c.hist.elections[s];
    assert ElectionOk(cfg, c.hist.ballots, s, e);
    assert WinnerMovesOn(c.servers, k.slot);
    assert StartLog(elections, tl, s);
    var p := QuorumsMeet(cfg, k.quorum, e.voterLogs.Keys);
    assert Acked(c.hist.acks, k.slot, k.log, p);
    var a :| a in c.hist.acks && a.node == p && a.slot == k.slot && k.log <= a.log;
    assert ElectionAck(elections, s, a);
    assert Kept(elections, k.slot.term, k.log, e.voterLogs[p], s.term - 1);
    forall s' | s' in elections && k.slot.term < s'.term < s.term ensures k.log <= elections[s'].startLog {
      LeaderCompleteness(cfg, c, k, s');
    }
    assert k.log <= e.voterLogs[p];
    if p != s.leader {
      assert BallotLog(elections, tl, Ballot(p, s.term, s.leader, e.voterLogs[p]));
      UpToDateHolds(elections, tl, k.log, k.slot.term, e.startLog, e.voterLogs[p], s.term);
    }
  }

  // ----- what stays true as terms rise and history grows -----

  lemma AckKeptLater(elections: Elections, a: Ack, held: Log, upTo: Term, held': Log, upTo': Term)
    requires AckKept(elections, a, held, upTo) && upTo <= upTo' && held <= held'
    ensures AckKept(elections, a, held', upTo')
  {
    forall log | log <= a.log ensures Kept(elections, a.slot.term, log, held', upTo') {
      assert Kept(elections, a.slot.term, log, held, upTo);
    }
  }

  lemma CoveredLater(commits: set<Commit>, t: Term, commits': set<Commit>, t': Term, log: Log)
    requires Covered(commits, t, log) && commits <= commits' && t <= t'
    ensures Covered(commits', t', log)
  {
  }

  lemma CommitIndexLater(commits: set<Commit>, n: NodeState, n': NodeState)
    requires CommitIndexOk(commits, n)
    requires n'.commitIndex == n.commitIndex && n'.lastApplied == n.lastApplied && n'.applied == n.applied
    requires n.log <= n'.log && n.term <= n'.term
    ensures CommitIndexOk(commits, n')
  {
    assert n'.log[..n.commitIndex] == n.log[..n.commitIndex];
    SameResults(n.log, n'.log, n.commitIndex);
    CoveredLater(commits, n.term, commits, n'.term, n.log[..n.commitIndex]);
  }

  lemma {:induction false} SameResults(log: Log, log': Log, upTo: nat)
    requires upTo <= |log| && upTo <= |log'| && log[..upTo] == log'[..upTo]
    ensures Results(log, 0, upTo) == Results(log', 0, upTo)
    decreases upTo
  {
    if upTo > 0 {
      assert log[..upTo][..upTo - 1] == log[..upTo - 1] && log'[..upTo][..upTo - 1] == log'[..upTo - 1];
      SameResults(log, log', upTo - 1);
      assert log[upTo - 1] == log[..upTo][upTo - 1] == log'[upTo - 1];
    }
  }

  lemma {:induction false} JoinResults(log: Log, from: nat, upTo: nat)
    requires from <= upTo
    ensures Results(log, 0, upTo) == Results(log, 0, from) + Results(log, from, upTo)
    decreases upTo
  {
    if from < upTo {
      JoinResults(log, from, upTo - 1);
    }
  }

  // ----- actions that change one node, and neither acknowledge nor commit -----

  lemma AcksAfterNode(elections: Elections, tl: TermLogs, servers: Servers, acks: set<Ack>, i: NodeId, s: Server)
    requires AcksOk(elections, tl, servers, acks) && i in servers
    requires servers[i].node.term <= s.node.term && servers[i].node.log <= s.node.log
    ensures AcksOk(elections, tl, servers[i := s], acks)
  {
    forall a | a in acks ensures AckOk(elections, tl, servers[i := s], a) {
      assert AckOk(elections, tl, servers, a);
      if a.node == i {
        AckKeptLater(elections, a, servers[i].node.log, servers[i].node.term, s.node.log, s.node.term);
      }
    }
  }

  lemma ServersAfterNode(acks: set<Ack>, commits: set<Commit>, servers: Servers, i: NodeId, s: Server)
    requires ServerCommits(acks, commits, servers) && ServerCommit(acks, commits, i, s)
    ensures ServerCommits(acks, commits, servers[i := s])
  {
    var servers' := servers[i := s];
    forall j | j in servers' ensures ServerCommit(acks, commits, j, servers'[j]) {
      assert j != i ==> ServerCommit(acks, commits, j, servers[j]);
    }
  }

  /** `c'` differs from `c` in one node and in nothing else that the commit invariant reads. */
  ghost predicate OnlyNodeCommit(c: Cluster, c': Cluster, i: NodeId, s: Server) {
    && i in c.servers && c'.servers == c.servers[i := s] && c'.hist == c.hist
    && c'.net.appends == c.net.appends && c'.net.appendReplies == c.net.appendReplies
  }

  lemma CommitKeptByNode(cfg: Config, c: Cluster, c': Cluster, i: NodeId, s: Server)
    requires CommitInv(cfg, c) && OnlyNodeCommit(c, c', i, s)
    requires ServerCommit(c.hist.acks, c.hist.commits, i, s)
    requires c.servers[i].node.term <= s.node.term && c.servers[i].node.log == s.node.log
    ensures CommitInv(cfg, c')
  {
    AcksAfterNode(c.hist.elections, c.hist.termLogs, c.servers, c.hist.acks, i, s);
    ServersAfterNode(c.hist.acks, c.hist.commits, c.servers, i, s);
  }

  lemma ServerCommitDemoted(acks: set<Ack>, commits: set<Commit>, i: NodeId, s: Server, s': Server)
    requires ServerCommit(acks, commits, i, s)
    requires s'.node.log == s.node.log && s.node.term <= s'.node.term
    requires s'.node.commitIndex == s.node.commitIndex && s'.node.lastApplied == s.node.lastApplied
    requires s'.node.applied == s.node.applied && s'.node.matchIndex == s.node.matchIndex
    requires s'.node.role.Leader? ==>
               s.node.role.Leader? && s'.node.term == s.node.term && (s'.thread.Won? || !s.thread.Won?)
    ensures ServerCommit(acks, commits, i, s')
  {
    CommitIndexLater(commits, s.node, s'.node);
  }

  lemma CommitKeptByCountVote(cfg: Config, c: Cluster, i: NodeId, r: VoteReplyMsg)
    requires Inv(cfg, c) && CommitInv(cfg, c) && Enabled(cfg, c, CountVote(i, r))
    ensures CommitInv(cfg, DoCountVote(c, i, r))
  {
    var s, c' := c.servers[i], DoCountVote(c, i, r);
    assert ServerCommit(c.hist.acks, c.hist.commits, i, s);
    assert ServerOk(cfg, c.hist.ballots, c.hist.elections, i, s);
    ServerCommitDemoted(c.hist.acks, c.hist.commits, i, s, c'.servers[i]);
    CommitKeptByNode(cfg, c, c', i, c'.servers[i]);
  }

  lemma CommitKeptByAdopt(cfg: Config, c: Cluster, i: NodeId)
    requires Inv(cfg, c) && CommitInv(cfg, c) && Enabled(cfg, c, Adopt(i)) && Timely(c, Adopt(i))
    ensures CommitInv(cfg, DoAdopt(c, i))
  {
    var s, c' := c.servers[i], DoAdopt(c, i);
    assert ServerCommit(c.hist.acks, c.hist.commits, i, s);
    assert ServerOk(cfg, c.hist.ballots, c.hist.elections, i, s);
    ServerCommitDemoted(c.hist.acks, c.hist.commits, i, s, c'.servers[i]);
    CommitKeptByNode(cfg, c, c', i, c'.servers[i]);
  }

  lemma CommitKeptBySetIndices(cfg: Config, c: Cluster, i: NodeId)
    requires LogInv(cfg, c) && CommitInv(cfg, c) && Enabled(cfg, c, SetIndices(i))
    ensures CommitInv(cfg, Do(cfg, c, SetIndices(i)))
  {
    var s, c' := c.servers[i], Do(cfg, c, SetIndices(i));
    assert ServerCommit(c.hist.acks, c.hist.commits, i, s);
    assert ServerLog(cfg, c.hist.elections, c.hist.termLogs, c.net.appends, i, s);
    CommitIndexLater(c.hist.commits, s.node, c'.servers[i].node);
    CommitKeptByNode(cfg, c, c', i, c'.servers[i]);
  }

  lemma CommitKeptByStartRound(cfg: Config, c: Cluster, i: NodeId)
    requires CommitInv(cfg, c) && Enabled(cfg, c, StartRound(i))
    ensures CommitInv(cfg, DoStartRound(cfg, c, i))
  {
    var s, c' := c.servers[i], DoStartRound(cfg, c, i);
    assert ServerCommit(c.hist.acks, c.hist.commits, i, s);
    CommitIndexLater(c.hist.commits, s.node, c'.servers[i].node);
    var c0 := c'.(net := c.net);
    CommitKeptByNode(cfg, c, c0, i, c'.servers[i]);
    forall m | m in c'.net.appends ensures AppendCommit(c.hist.commits, m) {
      assert m in c.net.appends ==> AppendCommit(c.hist.commits, m);
    }
    forall r | r in c'.net.appendReplies ensures AppendReplyOk(c'.net.appends, c.hist.acks, r) {
      assert AppendReplyOk(c.net.appends, c.hist.acks, r);
    }
  }

  // ----- voting -----

  lemma CommitKeptByBallot(cfg: Config, c: Cluster, c': Cluster, b: Ballot, s: Server)
    requires CommitInv(cfg, c) && b.voter in c.servers
    requires c'.servers == c.servers[b.voter := s] && c'.hist == c.hist.(ballots := c.hist.ballots + {b})
    requires c'.net.appends == c.net.appends && c'.net.appendReplies == c.net.appendReplies
    requires ServerCommit(c.hist.acks, c.hist.commits, b.voter, s)
    requires var n := c.servers[b.voter].node;
      b.log == n.log == s.node.log && n.term <= b.term == s.node.term
    ensures CommitInv(cfg, c')
  {
    var n, elections := c.servers[b.voter].node, c.hist.elections;
    forall a | a in c.hist.acks ensures BallotAck(elections, b, a) {
      assert AckOk(elections, c.hist.termLogs, c.servers, a);
      if b.voter == a.node && a.slot.term < b.term && !Decided(elections, b.term) {
        var last := b.term - 1;
        forall log | log <= a.log ensures Kept(elections, a.slot.term, log, b.log, last) {
          assert Kept(elections, a.slot.term, log, n.log, n.term);
        }
      }
    }
    forall b', a | b' in c'.hist.ballots && a in c.hist.acks ensures BallotAck(elections, b', a) {
    }
    CommitKeptByNode(cfg, c, c'.(hist := c.hist), b.voter, s);
  }

  lemma CommitKeptByStartElection(cfg: Config, c: Cluster, i: NodeId)
    requires CommitInv(cfg, c) && Enabled(cfg, c, StartElection(i))
    ensures CommitInv(cfg, DoStartElection(c, i))
  {
    var s, c' := c.servers[i], DoStartElection(c, i);
    var n := c'.servers[i].node;
    assert ServerCommit(c.hist.acks, c.hist.commits, i, s);
    ServerCommitDemoted(c.hist.acks, c.hist.commits, i, s, c'.servers[i]);
    CommitKeptByBallot(cfg, c, c', Ballot(i, n.term, i, n.log), c'.servers[i]);
  }

  lemma CommitKeptByHandleVote(cfg: Config, c: Cluster, m: VoteMsg)
    requires Inv(cfg, c) && CommitInv(cfg, c) && Enabled(cfg, c, HandleVote(m))
    ensures CommitInv(cfg, DoHandleVote(c, m))
  {
    var s, c' := c.servers[m.to], DoHandleVote(c, m);
    var b := Ballot(m.to, m.req.term, m.req.candidate, s.node.log);
    assert VoteMsgOk(cfg, c.servers, m);
    assert ServerCommit(c.hist.acks, c.hist.commits, m.to, s);
    RequestVoteFacts(cfg, s.node, m.req, m.to);
    ServerCommitDemoted(c.hist.acks, c.hist.commits, m.to, s, c'.servers[m.to]);
    if HandleRequestVote(s.node, m.req).1.granted {
      CommitKeptByBallot(cfg, c, c', b, c'.servers[m.to]);
    } else {
      CommitKeptByNode(cfg, c, c', m.to, c'.servers[m.to]);
    }
  }

  // ----- winning -----

  lemma AckKeptWin(elections: Elections, slot: Slot, e: Election, a: Ack, held: Log, upTo: Term)
    requires AckKept(elections, a, held, upTo) && slot !in elections
    ensures AckKept(elections[slot := e], a, held, upTo)
  {
    var elections' := elections[slot := e];
    forall log | log <= a.log ensures Kept(elections', a.slot.term, log, held, upTo) {
      assert Kept(elections, a.slot.term, log, held, upTo);
      if !(log <= held) {
        var s :| s in elections && a.slot.term < s.term <= upTo && !(log <= elections[s].startLog);
        assert s in elections' && elections'[s] == elections[s];
      }
    }
  }

  lemma WinAcks(elections: Elections, tl: TermLogs, servers: Servers, acks: set<Ack>, slot: Slot, e: Election)
    requires AcksOk(elections, tl, servers, acks) && slot !in elections && slot.term !in tl
    ensures AcksOk(elections[slot := e], tl, servers, acks)
  {
    var elections' := elections[slot := e];
    forall a | a in acks ensures AckOk(elections', tl, servers, a) {
      assert AckOk(elections, tl, servers, a);
      AckKeptWin(elections, slot, e, a, servers[a.node].node.log, servers[a.node].node.term);
    }
  }

  lemma WinBallotAcks(elections: Elections, ballots: set<Ballot>, acks: set<Ack>, slot: Slot, e: Election)
    requires BallotAcks(elections, ballots, acks) && slot !in elections
    ensures BallotAcks(elections[slot := e], ballots, acks)
  {
    var elections' := elections[slot := e];
    forall b, a | b in ballots && a in acks ensures BallotAck(elections', b, a) {
      assert BallotAck(elections, b, a);
      if b.voter == a.node && a.slot.term < b.term {
        if Decided(elections, b.term) {
          var s :| s in elections && s.term == b.term;
          assert s in elections';
        } else {
          AckKeptWin(elections, slot, e, a, b.log, b.term - 1);
        }
      }
    }
  }

  /** A winner's voters voted with what they had acknowledged, for the term had no leader before. */
  lemma WinElectionAcks(elections: Elections, ballots: set<Ballot>, acks: set<Ack>, slot: Slot, e: Election)
    requires ElectionAcks(elections, acks) && BallotAcks(elections, ballots, acks)
    requires slot !in elections && UniqueLeaders(elections[slot := e])
    requires forall v :: v in e.voterLogs ==> Ballot(v, slot.term, slot.leader, e.voterLogs[v]) in ballots
    ensures ElectionAcks(elections[slot := e], acks)
  {
    var elections' := elections[slot := e];
    forall s | s in elections ensures s.term != slot.term {
      assert s in elections' && slot in elections';
    }
    forall s, a | s in elections' && a in acks ensures ElectionAck(elections', s, a) {
      if a.node in elections'[s].voterLogs && a.slot.term < s.term {
        var held := elections'[s].voterLogs[a.node];
        if s != slot {
          assert ElectionAck(elections, s, a);
        } else {
          assert BallotAck(elections, Ballot(a.node, slot.term, slot.leader, held), a);
        }
        AckKeptWin(elections, slot, e, a, held, s.term - 1);
      }
    }
  }

  lemma WinCommits(cfg: Config, elections: Elections, tl: TermLogs, acks: set<Ack>, commits: set<Commit>, slot: Slot,
                   e: Election)
    requires CommitsOk(cfg, elections, tl, acks, commits) && slot !in elections && slot.term !in tl
    ensures CommitsOk(cfg, elections[slot := e], tl, acks, commits)
  {
    forall k | k in commits ensures CommitOk(cfg, elections[slot := e], tl, acks, k) {
      assert CommitOk(cfg, elections, tl, acks, k);
    }
  }

  lemma CommitKeptByWin(cfg: Config, c: Cluster, i: NodeId)
    requires Inv(cfg, c) && LogInv(cfg, c) && CommitInv(cfg, c) && i in c.servers
    requires CanWin(cfg, c.hist.ballots, c.hist.elections, i, c.servers[i])
    requires c.servers[i].node.term !in c.hist.termLogs
    requires UniqueLeaders(DoEndElection(cfg, c, i).hist.elections)
    requires VotesOk(cfg, c.hist.ballots, DoEndElection(cfg, c, i).hist.elections)
    ensures CommitInv(cfg, DoEndElection(cfg, c, i))
  {
    var s, c' := c.servers[i], DoEndElection(cfg, c, i);
    var slot, e := Slot(s.node.term, i), WonBy(c.hist.elections, i, s);
    assert c'.servers == c.servers[i := Server(s.node.(role := Leader), Won)];
    assert c'.hist == c.hist.(elections := c.hist.elections[slot := e]);
    assert ServerCommit(c.hist.acks, c.hist.commits, i, s);
    CommitIndexLater(c.hist.commits, s.node, c'.servers[i].node);
    assert ElectionOk(cfg, c.hist.ballots, slot, c'.hist.elections[slot]);
    AcksAfterNode(c.hist.elections, c.hist.termLogs, c.servers, c.hist.acks, i, c'.servers[i]);
    WinAcks(c.hist.elections, c.hist.termLogs, c'.servers, c.hist.acks, slot, e);
    WinBallotAcks(c.hist.elections, c.hist.ballots, c.hist.acks, slot, e);
    WinElectionAcks(c.hist.elections, c.hist.ballots, c.hist.acks, slot, e);
    WinCommits(cfg, c.hist.elections, c.hist.termLogs, c.hist.acks, c.hist.commits, slot, e);
    ServersAfterNode(c.hist.acks, c.hist.commits, c.servers, i, c'.servers[i]);
  }

  lemma CommitKeptByEndElection(cfg: Config, c: Cluster, i: NodeId)
    requires Inv(cfg, c) && LogInv(cfg, c) && CommitInv(cfg, c) && Enabled(cfg, c, EndElection(i))
    requires Inv(cfg, DoEndElection(cfg, c, i)) && UniqueLeaders(DoEndElection(cfg, c, i).hist.elections)
    ensures CommitInv(cfg, DoEndElection(cfg, c, i))
  {
    var s, c' := c.servers[i], DoEndElection(cfg, c, i);
    assert ServerOk(cfg, c.hist.ballots, c.hist.elections, i, s);
    if c'.servers[i].node.role.Leader? {
      assert Slot(s.node.term, i) in c.hist.elections ==> WinnerMovesOn(c.servers, Slot(s.node.term, i));
      NoEntriesBeforeElection(cfg, c, i);
      CommitKeptByWin(cfg, c, i);
    } else {
      assert ServerCommit(c.hist.acks, c.hist.commits, i, s);
      ServerCommitDemoted(c.hist.acks, c.hist.commits, i, s, c'.servers[i]);
      CommitKeptByNode(cfg, c, c', i, c'.servers[i]);
    }
  }

  // ----- acknowledging -----

  /** A node that acknowledges a log of its current term has voted in no later term. */
  lemma FreshAck(cfg: Config, ballots: set<Ballot>, elections: Elections, servers: Servers, acks: set<Ack>, a: Ack)
    requires BallotsOk(cfg, ballots, elections, servers) && ElectionsOk(cfg, ballots, elections)
    requires BallotAcks(elections, ballots, acks) && ElectionAcks(elections, acks)
    requires a.node in servers && servers[a.node].node.term <= a.slot.term
    ensures BallotAcks(elections, ballots, acks + {a}) && ElectionAcks(elections, acks + {a})
  {
    forall b, a' | b in ballots && a' in acks + {a} ensures BallotAck(elections, b, a') {
      assert BallotOk(cfg, elections, servers, b);
      assert a' in acks ==> BallotAck(elections, b, a');
    }
    forall s, a' | s in elections && a' in acks + {a} ensures ElectionAck(elections, s, a') {
      if a' in acks {
        assert ElectionAck(elections, s, a');
      } else if a.node in elections[s].voterLogs {
        assert ElectionOk(cfg, ballots, s, elections[s]);
        assert BallotOk(cfg, elections, servers, Ballot(a.node, s.term, s.leader, elections[s].voterLogs[a.node]));
      }
    }
  }

  lemma MoreAcks(cfg: Config, elections: Elections, tl: TermLogs, servers: Servers, acks: set<Ack>, more: set<Ack>,
                 commits: set<Commit>, appends: set<AppendMsg>, replies: set<AppendReplyMsg>)
    requires acks <= more
    requires CommitsOk(cfg, elections, tl, acks, commits) && ServerCommits(acks, commits, servers)
    requires AppendRepliesOk(appends, replies, acks)
    ensures CommitsOk(cfg, elections, tl, more, commits) && ServerCommits(more, commits, servers)
    ensures AppendRepliesOk(appends, replies, more)
  {
    forall k | k in commits ensures CommitOk(cfg, elections, tl, more, k) {
      assert CommitOk(cfg, elections, tl, acks, k);
      forall q | q in k.quorum ensures Acked(more, k.slot, k.log, q) {
        assert Acked(acks, k.slot, k.log, q);
      }
    }
    forall i | i in servers ensures ServerCommit(more, commits, i, servers[i]) {
      assert ServerCommit(acks, commits, i, servers[i]);
    }
    forall r | r in replies ensures AppendReplyOk(appends, more, r) {
      assert AppendReplyOk(appends, acks, r);
    }
  }

  lemma CreateAcks(elections: Elections, tl: TermLogs, tl': TermLogs, servers: Servers, acks: set<Ack>, a: Ack)
    requires AcksOk(elections, tl, servers, acks) && AckOk(elections, tl', servers, a)
    requires forall s :: s in elections ==> LeaderLog(elections, tl, s) <= LeaderLog(elections, tl', s)
    ensures AcksOk(elections, tl', servers, acks + {a})
  {
    forall a' | a' in acks + {a} ensures AckOk(elections, tl', servers, a') {
      assert a' in acks ==> AckOk(elections, tl, servers, a');
    }
  }

  lemma CreateCommits(cfg: Config, elections: Elections, tl: TermLogs, tl': TermLogs, acks: set<Ack>,
                      commits: set<Commit>)
    requires CommitsOk(cfg, elections, tl, acks, commits)
    requires forall s :: s in elections ==> LeaderLog(elections, tl, s) <= LeaderLog(elections, tl', s)
    ensures CommitsOk(cfg, elections, tl', acks, commits)
  {
    forall k | k in commits ensures CommitOk(cfg, elections, tl', acks, k) {
      assert CommitOk(cfg, elections, tl, acks, k);
    }
  }

  lemma ProposeKeepsMatch(acks: set<Ack>, i: NodeId, n: NodeState, command: Bytes)
    requires MatchOk(acks, i, n) && n.role.Leader?
    ensures MatchOk(acks, i, Propose(n, command))
  {
    var n' := Propose(n, command);
    forall p | p in n'.matchIndex
      ensures n'.matchIndex[p] <= |n'.log|
      ensures n'.matchIndex[p] > 0 ==> Ack(p, Slot(n'.term, i), n'.log[..n'.matchIndex[p]]) in acks
    {
      assert n'.log[..n.matchIndex[p]] == n.log[..n.matchIndex[p]];
    }
  }

  lemma CommitKeptByPropose(cfg: Config, c: Cluster, i: NodeId, command: Bytes)
    requires Inv(cfg, c) && LogInv(cfg, c) && CommitInv(cfg, c) && Enabled(cfg, c, ProposeCommand(i, command))
    ensures CommitInv(cfg, DoPropose(c, i, command))
  {
    var s, c' := c.servers[i], DoPropose(c, i, command);
    if s.node.role.Leader? {
      var h, h', s' := c.hist, c'.hist, c'.servers[i];
      var t := s.node.term;
      var a := Ack(i, Slot(t, i), s'.node.log);
      assert ServerLog(cfg, h.elections, h.termLogs, c.net.appends, i, s);
      assert ServerOk(cfg, h.ballots, h.elections, i, s);
      assert ServerCommit(h.acks, h.commits, i, s);
      LeaderIsCreator(cfg, c, i);
      assert h'.termLogs == h.termLogs[t := TermLog(i, s.node.log + [Entry(t, command)])];
      CreationGrows(h.elections, h.termLogs, h'.termLogs, t, i, s.node.log);
      AcksAfterNode(h.elections, h.termLogs, c.servers, h.acks, i, s');
      CreateAcks(h.elections, h.termLogs, h'.termLogs, c'.servers, h.acks, a);
      FreshAck(cfg, h.ballots, h.elections, c.servers, h.acks, a);
      CommitIndexLater(h.commits, s.node, s'.node);
      if !s.thread.Won? {
        ProposeKeepsMatch(h.acks, i, s.node, command);
      }
      ServersAfterNode(h.acks, h.commits, c.servers, i, s');
      CreateCommits(cfg, h.elections, h.termLogs, h'.termLogs, h.acks, h.commits);
      MoreAcks(cfg, h.elections, h'.termLogs, c'.servers, h.acks, h'.acks, h.commits, c.net.appends,
        c.net.appendReplies);
    }
  }

  // ----- the end of a round -----

  /** A reply says what its peer acknowledged of the leader's log. */
  ghost predicate ResultOk(acks: set<Ack>, i: NodeId, n: NodeState, r: RpcResult) {
    r.reply.Some? && r.reply.value.success ==>
      && r.prevIndex + r.sent <= |n.log|
      && Ack(r.peer, Slot(n.term, i), n.log[..r.prevIndex + r.sent]) in acks
  }

  lemma {:induction false} RepliesKeepMatch(acks: set<Ack>, i: NodeId, t: Tally, rs: seq<RpcResult>)
    requires !t.deposed && MatchOk(acks, i, t.node)
    requires forall k :: 0 <= k < |rs| ==> ResultOk(acks, i, t.node, rs[k])
    ensures var t' := ProcessReplies(t, rs); !t'.deposed ==> MatchOk(acks, i, t'.node)
    decreases |rs|
  {
    if rs != [] {
      var r := rs[|rs| - 1];
      RepliesKeepMatch(acks, i, t, rs[..|rs| - 1]);
      RepliesLeaveVote(t, rs[..|rs| - 1]);
      assert ResultOk(acks, i, t.node, r);
    }
  }

  /** The scan finds the largest index above the commit index that the commit rule accepts. */
  lemma {:induction false} ScanFinds(n: NodeState, idx: nat, majority: nat)
    requires idx <= |n.log|
    ensures var r := CommitScan(n, idx, majority);
      && (r == n.commitIndex || (n.commitIndex < r <= idx && Committable(n, r, majority)))
      && (forall j :: r < j <= idx && n.commitIndex < j ==> !Committable(n, j, majority))
    decreases idx
  {
    if idx > n.commitIndex && !Committable(n, idx, majority) {
      ScanFinds(n, idx - 1, majority);
    }
  }

  /** The commit rule: an own-term entry that a majority matches is stored on a majority. */
  lemma NewCommitOk(cfg: Config, elections: Elections, tl: TermLogs, acks: set<Ack>, i: NodeId, n: NodeState, idx: nat)
    requires Slot(n.term, i) in elections && n.log == LeaderLog(elections, tl, Slot(n.term, i)) && Anchored(tl, n.log)
    requires MatchOk(acks, i, n) && OwnAcks(tl, acks) && Committable(n, idx, Quorum(cfg))
    requires n.matchIndex.Keys <= cfg.members - {i} && i in cfg.members
    requires n.term in tl ==> tl[n.term].creator == i && tl[n.term].log == n.log
    ensures CommitOk(cfg, elections, tl, acks, Commit(Slot(n.term, i), n.log[..idx], Matching(n.matchIndex, idx) + {i}))
  {
    var slot, log, peers := Slot(n.term, i), n.log[..idx], Matching(n.matchIndex, idx);
    assert AnchoredAt(tl, n.log, idx - 1);
    assert i !in peers && |peers + {i}| == |peers| + 1;
    forall q | q in peers + {i} ensures Acked(acks, slot, log, q) {
      var m := if q == i then |n.log| else n.matchIndex[q];
      assert n.log[..|n.log|] == n.log;
      assert Ack(q, slot, n.log[..m]) in acks;
      assert log <= n.log[..m];
    }
  }

  lemma MoreCommits(cfg: Config, c: Cluster, c': Cluster, k: Commit)
    requires CommitInv(cfg, c) && CommitOk(cfg, c.hist.elections, c.hist.termLogs, c.hist.acks, k)
    requires c' == c.(hist := c.hist.(commits := c.hist.commits + {k}))
    ensures CommitInv(cfg, c')
  {
    var commits := c'.hist.commits;
    forall i | i in c.servers ensures ServerCommit(c.hist.acks, commits, i, c.servers[i]) {
      assert ServerCommit(c.hist.acks, c.hist.commits, i, c.servers[i]);
      var n := c.servers[i].node;
      CoveredLater(c.hist.commits, n.term, commits, n.term, n.log[..n.commitIndex]);
    }
    forall m | m in c.net.appends ensures AppendCommit(commits, m) {
      assert AppendCommit(c.hist.commits, m);
      CoveredLater(c.hist.commits, m.req.term, commits, m.req.term, m.log[..m.req.leaderCommit]);
    }
    forall k' | k' in commits ensures CommitOk(cfg, c.hist.elections, c.hist.termLogs, c.hist.acks, k') {
    }
  }

  lemma ApplyKeeps(commits: set<Commit>, n: NodeState, n': NodeState)
    requires CommitIndexOk(commits, n)
    requires n'.lastApplied == n.lastApplied && n'.applied == n.applied
    requires n.commitIndex <= n'.commitIndex <= |n'.log| && n.commitIndex <= |n'.log|
    requires n'.log[..n.commitIndex] == n.log[..n.commitIndex]
    requires Covered(commits, n'.term, n'.log[..n'.commitIndex])
    ensures CommitIndexOk(commits, ApplyCommitted(n'))
  {
    SameResults(n.log, n'.log, n.commitIndex);
    JoinResults(n'.log, n.commitIndex, n'.commitIndex);
  }

  /** The answers of a round, in terms of the acknowledgements on record. */
  lemma RoundResultsOk(cfg: Config, c: Cluster, i: NodeId, rs: seq<AppendReplyMsg>)
    requires Inv(cfg, c) && LogInv(cfg, c) && CommitInv(cfg, c) && i in c.servers && c.servers[i].node.role.Leader?
    requires c.servers[i].thread.Round? && AnswersTo(c, c.servers[i].thread.sent, rs)
    ensures forall k :: 0 <= k < |rs| ==> ResultOk(c.hist.acks, i, c.servers[i].node, ResultsOf(rs)[k])
  {
    var s := c.servers[i];
    LeaderResultsFit(cfg, c, i, rs);
    assert ServerLog(cfg, c.hist.elections, c.hist.termLogs, c.net.appends, i, s);
    assert ServerOk(cfg, c.hist.ballots, c.hist.elections, i, s);
    forall k | 0 <= k < |rs| ensures ResultOk(c.hist.acks, i, s.node, ResultsOf(rs)[k]) {
      assert AppendReplyOk(c.net.appends, c.hist.acks, rs[k]);
      assert rs[k].msg in s.thread.sent;
      assert s.node.log[..|s.thread.began|] == s.thread.began;
    }
  }

  lemma CommitKeptByEndRound(cfg: Config, c: Cluster, i: NodeId, rs: seq<AppendReplyMsg>, timedOut: bool)
    requires Inv(cfg, c) && LogInv(cfg, c) && CommitInv(cfg, c) && Enabled(cfg, c, EndRound(i, rs, timedOut))
    requires LogInv(cfg, DoEndRound(cfg, c, i, rs, timedOut))
    ensures CommitInv(cfg, DoEndRound(cfg, c, i, rs, timedOut))
  {
    var s, c' := c.servers[i], DoEndRound(cfg, c, i, rs, timedOut);
    assert ServerCommit(c.hist.acks, c.hist.commits, i, s);
    if !s.node.role.Leader? {
      CommitKeptByNode(cfg, c, c', i, c'.servers[i]);
    } else {
      var t := ProcessReplies(Tally(s.node, 1, false), ResultsOf(rs));
      RoundResultsOk(cfg, c, i, rs);
      RepliesKeepMatch(c.hist.acks, i, Tally(s.node, 1, false), ResultsOf(rs));
      RepliesLeaveVote(Tally(s.node, 1, false), ResultsOf(rs));
      if t.deposed {
        CommitIndexLater(c.hist.commits, s.node, t.node);
        CommitKeptByNode(cfg, c, c', i, c'.servers[i]);
      } else {
        LeaderResultsFit(cfg, c, i, rs);
        assert ServerLog(cfg, c.hist.elections, c.hist.termLogs, c.net.appends, i, s);
        assert ServerOk(cfg, c.hist.ballots, c.hist.elections, i, s);
        RepliesKeepIndices(cfg, i, Tally(s.node, 1, false), ResultsOf(rs));
        CommitKeptByAdvance(cfg, c, c', i, t.node, c'.servers[i].node);
      }
    }
  }

  /** The leader's state once the replies are processed, before it commits. */
  ghost predicate RepliesIn(cfg: Config, acks: set<Ack>, i: NodeId, m: NodeState, n: NodeState) {
    && n.log == m.log && n.term == m.term && n.commitIndex == m.commitIndex
    && n.lastApplied == m.lastApplied && n.applied == m.applied
    && MatchOk(acks, i, n) && n.matchIndex.Keys <= cfg.members - {i}
  }

  lemma RecordCommit(cfg: Config, c: Cluster, i: NodeId, n: NodeState) returns (c': Cluster)
    requires Inv(cfg, c) && LogInv(cfg, c) && CommitInv(cfg, c) && i in c.servers && c.servers[i].node.role.Leader?
    requires RepliesIn(cfg, c.hist.acks, i, c.servers[i].node, n)
    ensures var n' := AdvanceCommit(n, Quorum(cfg));
      && c' == c.(hist := c.hist.(commits := c.hist.commits + NewCommits(n', i, n.commitIndex)))
      && n.commitIndex <= n'.commitIndex <= |n'.log| && Covered(c'.hist.commits, n.term, n.log[..n'.commitIndex])
    ensures CommitInv(cfg, c')
  {
    var idx := CommitScan(n, |n.log|, Quorum(cfg));
    assert ServerCommit(c.hist.acks, c.hist.commits, i, c.servers[i]);
    assert ServerLog(cfg, c.hist.elections, c.hist.termLogs, c.net.appends, i, c.servers[i]);
    assert ServerOk(cfg, c.hist.ballots, c.hist.elections, i, c.servers[i]);
    ScanFinds(n, |n.log|, Quorum(cfg));
    c' := c.(hist := c.hist.(commits := c.hist.commits + NewCommits(AdvanceCommit(n, Quorum(cfg)), i, n.commitIndex)));
    if idx > n.commitIndex {
      var k := Commit(Slot(n.term, i), n.log[..idx], Matching(n.matchIndex, idx) + {i});
      LeaderIsCreator(cfg, c, i);
      NewCommitOk(cfg, c.hist.elections, c.hist.termLogs, c.hist.acks, i, n, idx);
      MoreCommits(cfg, c, c', k);
      assert k in c'.hist.commits;
    } else {
      assert c'.hist.commits == c.hist.commits;
      assert c' == c;
    }
  }

  lemma AdvancedServer(cfg: Config, acks: set<Ack>, commits: set<Commit>, i: NodeId, m: NodeState, n: NodeState,
                       n': NodeState)
    requires CommitIndexOk(commits, m) && RepliesIn(cfg, acks, i, m, n)
    requires var a := AdvanceCommit(n, Quorum(cfg));
      && n.commitIndex <= a.commitIndex <= |a.log| && Covered(commits, n.term, n.log[..a.commitIndex])
      && (n' == ApplyCommitted(a) || n' == StepDown(ApplyCommitted(a), cfg.keepVote))
    ensures ServerCommit(acks, commits, i, Server(n', Idle))
  {
    ApplyKeeps(commits, m, AdvanceCommit(n, Quorum(cfg)));
  }

  /** Once the replies are processed, the leader commits, applies, and possibly steps down. */
  lemma CommitKeptByAdvance(cfg: Config, c: Cluster, c': Cluster, i: NodeId, n: NodeState, n': NodeState)
    requires Inv(cfg, c) && LogInv(cfg, c) && CommitInv(cfg, c) && i in c.servers && c.servers[i].node.role.Leader?
    requires RepliesIn(cfg, c.hist.acks, i, c.servers[i].node, n)
    requires var a := ApplyCommitted(AdvanceCommit(n, Quorum(cfg)));
      n' == a || n' == StepDown(a, cfg.keepVote)
    requires c'.servers == c.servers[i := Server(n', Idle)] && c'.net == c.net
    requires c'.hist == c.hist.(commits := c.hist.commits + NewCommits(n', i, n.commitIndex))
    ensures CommitInv(cfg, c')
  {
    var c0 := RecordCommit(cfg, c, i, n);
    assert c0.hist == c'.hist;
    assert ServerCommit(c0.hist.acks, c0.hist.commits, i, c0.servers[i]);
    AdvancedServer(cfg, c0.hist.acks, c0.hist.commits, i, c.servers[i].node, n, n');
    CommitKeptByNode(cfg, c0, c', i, Server(n', Idle));
  }

  // ----- accepting entries -----

  /** Two logs of the same leader in the same term: one begins the other. */
  lemma SameLeaderLogs(a: Log, b: Log, leaderLog: Log)
    requires a <= leaderLog && b <= leaderLog
    ensures a <= b || b <= a
  {
  }

  /** What a node acknowledged outlives the next leader's message, or that leader lacked it. */
  lemma AcksAfterAppend(cfg: Config, elections: Elections, tl: TermLogs, a: Ack, m: AppendMsg, held: Log, held': Log,
                        upTo: Term)
    requires UniqueLeaders(elections) && AppendOk(cfg, elections, tl, m)
    requires a.slot in elections && a.log <= LeaderLog(elections, tl, a.slot)
    requires AckKept(elections, a, held, upTo) && upTo <= m.req.term && a.slot.term <= m.req.term
    requires held' == if m.log <= held then held else m.log
    ensures AckKept(elections, a, held', m.req.term)
  {
    var slot := Slot(m.req.term, m.req.leader);
    forall log | log <= a.log ensures Kept(elections, a.slot.term, log, held', m.req.term) {
      assert Kept(elections, a.slot.term, log, held, upTo);
      if log <= held && held' == m.log {
        if a.slot.term == m.req.term {
          assert a.slot == slot;
          SameLeaderLogs(log, m.log, LeaderLog(elections, tl, slot));
        } else if !(log <= elections[slot].startLog) {
          assert Overwritten(elections, a.slot.term, log, m.req.term);
        }
      }
    }
  }

  /** An accepted request never cuts a committed entry. */
  lemma CommittedSurvives(cfg: Config, c: Cluster, log: Log, t: Term, held: Log, m: AppendMsg)
    requires Inv(cfg, c) && LogInv(cfg, c) && CommitInv(cfg, c) && UniqueLeaders(c.hist.elections)
    requires m in c.net.appends && t <= m.req.term
    requires Covered(c.hist.commits, t, log) && log <= held
    ensures log <= if m.log <= held then held else m.log
  {
    var elections, tl := c.hist.elections, c.hist.termLogs;
    if log != [] && !(m.log <= held) {
      var k :| k in c.hist.commits && k.slot.term <= t && log <= k.log;
      var slot := Slot(m.req.term, m.req.leader);
      assert CommitOk(cfg, elections, tl, c.hist.acks, k);
      assert AppendOk(cfg, elections, tl, m);
      if k.slot.term < m.req.term {
        LeaderCompleteness(cfg, c, k, slot);
      } else {
        assert k.slot == slot;
        SameLeaderLogs(log, m.log, LeaderLog(elections, tl, slot));
      }
    }
  }

  lemma AppendServer(cfg: Config, c: Cluster, m: AppendMsg)
    requires Inv(cfg, c) && LogInv(cfg, c) && CommitInv(cfg, c) && UniqueLeaders(c.hist.elections)
    requires m in c.net.appends && m.to in c.servers
    ensures var s := c.servers[m.to];
      var n := HandleAppendEntries(s.node, m.req).0;
      CommitIndexOk(c.hist.commits, n) && (n.role.Leader? ==> n == s.node)
  {
    var n := c.servers[m.to].node;
    var (n', reply) := HandleAppendEntries(n, m.req);
    assert ServerCommit(c.hist.acks, c.hist.commits, m.to, c.servers[m.to]);
    assert ServerLog(cfg, c.hist.elections, c.hist.termLogs, c.net.appends, m.to, c.servers[m.to]);
    assert AppendOk(cfg, c.hist.elections, c.hist.termLogs, m);
    assert AppendCommit(c.hist.commits, m);
    SentLogFacts(cfg, c.hist.elections, c.hist.termLogs, m);
    HandleAppendLog(c.hist.termLogs, n, m);
    if reply.success {
      CommittedSurvives(cfg, c, n.log[..n.commitIndex], n.term, n.log, m);
      AcceptedCommit(c.hist.commits, n, m, n');
    } else {
      CommitIndexLater(c.hist.commits, n, n');
    }
  }

  /** Clamping by the own log's length: it is never needed, and commits only what the leader had committed. */
  lemma AcceptedCommit(commits: set<Commit>, n: NodeState, m: AppendMsg, n': NodeState)
    requires CommitIndexOk(commits, n) && AppendCommit(commits, m)
    requires n.term <= m.req.term && PrevMatches(n.log, m.req) && n' == HandleAppendEntries(n, m.req).0
    requires m.log <= n'.log && n.log[..n.commitIndex] <= n'.log
    ensures CommitIndexOk(commits, n')
  {
    var heard := HeardLeader(n, m.req.term);
    var log := MergeEntries(heard.log, m.req.prevIndex, m.req.entries);
    var commit := if m.req.leaderCommit > n.commitIndex then Min(m.req.leaderCommit, |log|) else n.commitIndex;
    var a := heard.(log := log, commitIndex := commit);
    assert n' == ApplyCommitted(a) && a.log == n'.log;
    assert a.log[..n.commitIndex] == n.log[..n.commitIndex];
    if m.req.leaderCommit > n.commitIndex {
      assert a.log[..m.req.leaderCommit] == m.log[..m.req.leaderCommit];
    } else {
      CoveredLater(commits, n.term, commits, a.term, n.log[..n.commitIndex]);
    }
    ApplyKeeps(commits, n, a);
  }

  lemma AppendAcks(cfg: Config, c: Cluster, m: AppendMsg)
    requires Inv(cfg, c) && LogInv(cfg, c) && CommitInv(cfg, c) && UniqueLeaders(c.hist.elections)
    requires m in c.net.appends && m.to in c.servers
    ensures AcksOk(c.hist.elections, c.hist.termLogs, DoHandleAppend(c, m).servers, DoHandleAppend(c, m).hist.acks)
  {
    var elections, tl, c' := c.hist.elections, c.hist.termLogs, DoHandleAppend(c, m);
    var n, n' := c.servers[m.to].node, c'.servers[m.to].node;
    assert ServerLog(cfg, elections, tl, c.net.appends, m.to, c.servers[m.to]);
    assert AppendOk(cfg, elections, tl, m);
    SentLogFacts(cfg, elections, tl, m);
    HandleAppendLog(tl, n, m);
    forall a | a in c'.hist.acks ensures AckOk(elections, tl, c'.servers, a) {
      if a in c.hist.acks {
        assert AckOk(elections, tl, c.servers, a);
        if a.node == m.to {
          if HandleAppendEntries(n, m.req).1.success {
            AcksAfterAppend(cfg, elections, tl, a, m, n.log, n'.log, n.term);
          } else {
            AckKeptLater(elections, a, n.log, n.term, n'.log, n'.term);
          }
        }
      } else {
        forall log | log <= a.log ensures Kept(elections, a.slot.term, log, n'.log, n'.term) {
        }
      }
    }
  }

  lemma CommitKeptByHandleAppend(cfg: Config, c: Cluster, m: AppendMsg)
    requires Inv(cfg, c) && LogInv(cfg, c) && CommitInv(cfg, c) && Enabled(cfg, c, HandleAppend(m))
    requires Inv(cfg, DoHandleAppend(c, m)) && UniqueLeaders(c.hist.elections)
    ensures CommitInv(cfg, DoHandleAppend(c, m))
  {
    var s, c' := c.servers[m.to], DoHandleAppend(c, m);
    var h, h', s' := c.hist, c'.hist, c'.servers[m.to];
    assert ServerCommit(h.acks, h.commits, m.to, s);
    AppendServer(cfg, c, m);
    AppendAcks(cfg, c, m);
    ServersAfterNode(h.acks, h.commits, c.servers, m.to, s');
    MoreAcks(cfg, h.elections, h.termLogs, c'.servers, h.acks, h'.acks, h.commits, c.net.appends, c.net.appendReplies);
    if HandleAppendEntries(s.node, m.req).1.success {
      FreshAck(cfg, h.ballots, h.elections, c'.servers, h.acks, Ack(m.to, Slot(m.req.term, m.req.leader), m.log));
    }
    forall r | r in c'.net.appendReplies ensures AppendReplyOk(c.net.appends, h'.acks, r) {
      assert r in c.net.appendReplies ==> AppendReplyOk(c.net.appends, h'.acks, r);
    }
  }

  // ----- runs -----

  lemma CommitKeptByStep(cfg: Config, c: Cluster, a: Action)
    requires Inv(cfg, c) && LogInv(cfg, c) && CommitInv(cfg, c)
    requires UniqueLeaders(Step(cfg, c, a).hist.elections) && Timely(c, a)
    ensures CommitInv(cfg, Step(cfg, c, a))
  {
    KeptByStep(cfg, c, a);
    LogKeptByStep(cfg, c, a);
    ElectionsStay(cfg, c, a);
    FewerUnique(c.hist.elections, Step(cfg, c, a).hist.elections);
    if Enabled(cfg, c, a) {
      match a {
        case StartElection(i) => CommitKeptByStartElection(cfg, c, i);
        case AskVote(i, to, req) =>
        case HandleVote(m) => CommitKeptByHandleVote(cfg, c, m);
        case CountVote(i, r) => CommitKeptByCountVote(cfg, c, i, r);
        case Adopt(i) => CommitKeptByAdopt(cfg, c, i);
        case EndElection(i) => CommitKeptByEndElection(cfg, c, i);
        case SetIndices(i) => CommitKeptBySetIndices(cfg, c, i);
        case StartRound(i) => CommitKeptByStartRound(cfg, c, i);
        case HandleAppend(m) => CommitKeptByHandleAppend(cfg, c, m);
        case EndRound(i, rs, timedOut) => CommitKeptByEndRound(cfg, c, i, rs, timedOut);
        case ProposeCommand(i, command) => CommitKeptByPropose(cfg, c, i, command);
      }
    }
  }

  lemma {:induction false} CommitsAlways(cfg: Config, run: seq<Action>)
    requires Peaceful(cfg, run)
    ensures Inv(cfg, After(cfg, run)) && LogInv(cfg, After(cfg, run)) && CommitInv(cfg, After(cfg, run))
    decreases |run|
  {
    LogsAlways(cfg, run);
    if run != [] {
      assert run[..|run| - 1] + [run[|run| - 1]] == run;
      PeacefulBefore(cfg, run[..|run| - 1], [run[|run| - 1]]);
      CommitsAlways(cfg, run[..|run| - 1]);
      CommitKeptByStep(cfg, After(cfg, run[..|run| - 1]), run[|run| - 1]);
    } else {
      InitiallyCommitted(cfg);
    }
  }

  lemma InitiallyCommitted(cfg: Config)
    ensures CommitInv(cfg, Init(cfg))
  {
  }
}
