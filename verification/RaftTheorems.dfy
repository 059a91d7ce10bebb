/** The guarantees of the cluster, stated for whole runs.

    Statements with `Prompt` hold for every run that adopts terms on time, in every cluster; those
    with `Peaceful` for such runs in which also no term has had two leaders. `Departures` shows for
    each of the latter that it holds for all prompt runs in exactly the `Steady` clusters.
    `LateAdoption` shows in which clusters agreement, log matching, the effect of an accepted
    request, one leader and one creator per term hold for all runs, prompt or not. */
module RaftTheorems {
  import opened RaftTypes
  import opened RaftSteps
  import opened Cluster
  import opened ElectionSafety
  import opened LogSafety
  import opened CommitSafety
  import opened AnyRun

  function NodeOf(c: Cluster, i: NodeId): NodeState
    requires i in c.servers
  {
    c.servers[i].node
  }

  lemma AfterMore(cfg: Config, run: seq<Action>, more: seq<Action>)
    requires more != []
    ensures After(cfg, run + more) == Step(cfg, After(cfg, run + more[..|more| - 1]), more[|more| - 1])
  {
    var all := run + more;
    assert all[..|all| - 1] == run + more[..|more| - 1];
  }

  // ----- log matching -----

  lemma StepGrows(cfg: Config, c: Cluster, a: Action)
    requires Inv(cfg, c) && LogInv(cfg, c)
    ensures Grows(c.hist.termLogs, Step(cfg, c, a).hist.termLogs)
    ensures c.hist.commits <= Step(cfg, c, a).hist.commits
  {
    if Enabled(cfg, c, a) && a.ProposeCommand? && c.servers[a.id].node.role.Leader? {
      LeaderIsCreator(cfg, c, a.id);
    }
  }

  lemma {:induction false} RunGrows(cfg: Config, run: seq<Action>, more: seq<Action>)
    requires Prompt(cfg, run + more)
    ensures Grows(After(cfg, run).hist.termLogs, After(cfg, run + more).hist.termLogs)
    ensures After(cfg, run).hist.commits <= After(cfg, run + more).hist.commits
    decreases |more|
  {
    if more == [] {
      assert run + more == run;
    } else {
      var fewer := more[..|more| - 1];
      assert run + more == run + fewer + [more[|more| - 1]];
      PromptBefore(cfg, run + fewer, [more[|more| - 1]]);
      RunGrows(cfg, run, fewer);
      LogsAlways(cfg, run + fewer);
      AfterMore(cfg, run, more);
      StepGrows(cfg, After(cfg, run + fewer), more[|more| - 1]);
    }
  }

  /** Log matching, over time: whoever holds an entry of some term at some index, whenever, holds
      the same log up to it. So the index and term returned for a proposal name one command forever. */
  lemma LogMatching(cfg: Config, run: seq<Action>, more: seq<Action>, i: NodeId, j: NodeId, k: nat)
    requires Prompt(cfg, run + more) && i in cfg.members && j in cfg.members
    requires i in After(cfg, run).servers && j in After(cfg, run + more).servers
    requires k < |NodeOf(After(cfg, run), i).log| && k < |NodeOf(After(cfg, run + more), j).log|
    requires NodeOf(After(cfg, run), i).log[k].term == NodeOf(After(cfg, run + more), j).log[k].term
    ensures NodeOf(After(cfg, run), i).log[..k + 1] == NodeOf(After(cfg, run + more), j).log[..k + 1]
  {
    var c, c' := After(cfg, run), After(cfg, run + more);
    PromptBefore(cfg, run, more);
    LogsAlways(cfg, run);
    LogsAlways(cfg, run + more);
    RunGrows(cfg, run, more);
    assert ServerLog(cfg, c.hist.elections, c.hist.termLogs, c.net.appends, i, c.servers[i]);
    assert ServerLog(cfg, c'.hist.elections, c'.hist.termLogs, c'.net.appends, j, c'.servers[j]);
    AnchoredGrows(c.hist.termLogs, c'.hist.termLogs, NodeOf(c, i).log);
    Matching2(c'.hist.termLogs, NodeOf(c, i).log, NodeOf(c', j).log, k);
  }

  /** The same for a log and a request in flight. */
  lemma LogMatchesRequest(cfg: Config, run: seq<Action>, m: AppendMsg, j: NodeId, k: nat)
    requires Prompt(cfg, run) && m in After(cfg, run).net.appends && j in After(cfg, run).servers
    requires k < |m.log| && k < |NodeOf(After(cfg, run), j).log| &&
      m.log[k].term == NodeOf(After(cfg, run), j).log[k].term
    ensures m.log[..k + 1] == NodeOf(After(cfg, run), j).log[..k + 1]
    ensures m.req.prevIndex <= |m.log| && m.req.entries == m.log[m.req.prevIndex..]
  {
    var c := After(cfg, run);
    LogsAlways(cfg, run);
    assert ServerLog(cfg, c.hist.elections, c.hist.termLogs, c.net.appends, j, c.servers[j]);
    assert AppendOk(cfg, c.hist.elections, c.hist.termLogs, m);
    SentLogFacts(cfg, c.hist.elections, c.hist.termLogs, m);
    Matching2(c.hist.termLogs, m.log, NodeOf(c, j).log, k);
  }

  /** Only one node ever appends entries in a term, even if the term had two leaders. */
  lemma OneCreatorPerTerm(cfg: Config, run: seq<Action>, more: seq<Action>, i: NodeId, command: Bytes, j: NodeId)
    requires Prompt(cfg, run + [ProposeCommand(i, command)] + more)
    requires i in After(cfg, run).servers && NodeOf(After(cfg, run), i).role.Leader?
    requires var later := run + [ProposeCommand(i, command)] + more;
      && j in After(cfg, later).servers && NodeOf(After(cfg, later), j).role.Leader?
      && NodeOf(After(cfg, later), j).term == NodeOf(After(cfg, run), i).term
    ensures i == j
  {
    var first := run + [ProposeCommand(i, command)];
    var later := first + more;
    PromptBefore(cfg, first, more);
    PromptBefore(cfg, run, [ProposeCommand(i, command)]);
    LogsAlways(cfg, run);
    LogsAlways(cfg, later);
    AfterMore(cfg, run, [ProposeCommand(i, command)]);
    assert run + [] == run;
    RunGrows(cfg, first, more);
    LeaderIsCreator(cfg, After(cfg, later), j);
  }

  /** An accepted request leaves the follower's log as it was or makes it the sender's log at the
      time of sending; a request whose log the follower already extends changes nothing. */
  lemma AcceptedLog(cfg: Config, run: seq<Action>, m: AppendMsg)
    requires Prompt(cfg, run) && m in After(cfg, run).net.appends && m.to in After(cfg, run).servers
    ensures var n := NodeOf(After(cfg, run), m.to);
      var (n', reply) := HandleAppendEntries(n, m.req);
      && (reply.success ==> n'.log == if m.log <= n.log then n.log else m.log)
      && (!reply.success ==> n'.log == n.log)
  {
    var c := After(cfg, run);
    LogsAlways(cfg, run);
    assert ServerLog(cfg, c.hist.elections, c.hist.termLogs, c.net.appends, m.to, c.servers[m.to]);
    assert AppendOk(cfg, c.hist.elections, c.hist.termLogs, m);
    SentLogFacts(cfg, c.hist.elections, c.hist.termLogs, m);
    HandleAppendLog(c.hist.termLogs, NodeOf(c, m.to), m);
  }

  // ----- commits -----

  /** What was committed by leaders of any two terms: one begins the other. */
  lemma CommitsAgree(cfg: Config, c: Cluster, k1: Commit, k2: Commit)
    requires Inv(cfg, c) && LogInv(cfg, c) && CommitInv(cfg, c) && UniqueLeaders(c.hist.elections)
    requires k1 in c.hist.commits && k2 in c.hist.commits && k1.slot.term <= k2.slot.term
    ensures k1.log <= k2.log || k2.log <= k1.log
  {
    var elections, tl := c.hist.elections, c.hist.termLogs;
    assert CommitOk(cfg, elections, tl, c.hist.acks, k1) && CommitOk(cfg, elections, tl, c.hist.acks, k2);
    if k1.slot.term < k2.slot.term {
      LeaderCompleteness(cfg, c, k1, k2.slot);
      LeaderLogFacts(elections, tl, k2.slot);
    } else {
      assert k1.slot == k2.slot;
    }
    SameLeaderLogs(k1.log, k2.log, LeaderLog(elections, tl, k2.slot));
  }

  lemma CoveredAgree(cfg: Config, c: Cluster, t1: Term, log1: Log, t2: Term, log2: Log)
    requires Inv(cfg, c) && LogInv(cfg, c) && CommitInv(cfg, c) && UniqueLeaders(c.hist.elections)
    requires Covered(c.hist.commits, t1, log1) && Covered(c.hist.commits, t2, log2) && |log1| <= |log2|
    ensures log1 <= log2
  {
    if log1 != [] {
      var k1 :| k1 in c.hist.commits && k1.slot.term <= t1 && log1 <= k1.log;
      var k2 :| k2 in c.hist.commits && k2.slot.term <= t2 && log2 <= k2.log;
      if k1.slot.term <= k2.slot.term {
        CommitsAgree(cfg, c, k1, k2);
      } else {
        CommitsAgree(cfg, c, k2, k1);
      }
    }
  }

  /** The committed part of node i's log. */
  ghost function CommittedLog(c: Cluster, i: NodeId): Log
    requires i in c.servers
  {
    c.servers[i].node.log[..Min(c.servers[i].node.commitIndex, |c.servers[i].node.log|)]
  }

  /** State machine safety: after every peaceful run, every node has applied exactly its committed
      log, and the committed logs of any two nodes agree. */
  lemma StateMachineSafety(cfg: Config, run: seq<Action>, i: NodeId, j: NodeId)
    requires Peaceful(cfg, run) && i in After(cfg, run).servers && j in After(cfg, run).servers
    ensures AppliesCommitted(NodeOf(After(cfg, run), i))
    ensures NodeOf(After(cfg, run), i).commitIndex <= NodeOf(After(cfg, run), j).commitIndex ==>
              CommittedLog(After(cfg, run), i) <= CommittedLog(After(cfg, run), j)
  {
    var c := After(cfg, run);
    CommitsAlways(cfg, run);
    assert ServerCommit(c.hist.acks, c.hist.commits, i, c.servers[i]);
    assert ServerCommit(c.hist.acks, c.hist.commits, j, c.servers[j]);
    var n, m := NodeOf(c, i), NodeOf(c, j);
    if n.commitIndex <= m.commitIndex {
      CoveredAgree(cfg, c, n.term, n.log[..n.commitIndex], m.term, m.log[..m.commitIndex]);
    }
  }

  /** `n'` has committed and applied all that `n` had, and perhaps more. */
  ghost predicate Extends(n: NodeState, n': NodeState) {
    && n.term <= n'.term && n.commitIndex <= n'.commitIndex && n.lastApplied <= n'.lastApplied
    && n.commitIndex <= |n.log| && n.commitIndex <= |n'.log|
    && n.log[..n.commitIndex] == n'.log[..n.commitIndex] && n.applied <= n'.applied
  }

  lemma AppendExtends(cfg: Config, c: Cluster, m: AppendMsg)
    requires Inv(cfg, c) && LogInv(cfg, c) && CommitInv(cfg, c) && UniqueLeaders(c.hist.elections)
    requires m in c.net.appends && m.to in c.servers
    ensures Extends(c.servers[m.to].node, HandleAppendEntries(c.servers[m.to].node, m.req).0)
  {
    var n := c.servers[m.to].node;
    var (n', reply) := HandleAppendEntries(n, m.req);
    assert ServerCommit(c.hist.acks, c.hist.commits, m.to, c.servers[m.to]);
    assert ServerLog(cfg, c.hist.elections, c.hist.termLogs, c.net.appends, m.to, c.servers[m.to]);
    assert AppendOk(cfg, c.hist.elections, c.hist.termLogs, m);
    assert AppendCommit(c.hist.commits, m);
    SentLogFacts(cfg, c.hist.elections, c.hist.termLogs, m);
    HandleAppendLog(c.hist.termLogs, n, m);
    AppendServer(cfg, c, m);
    if reply.success {
      CommittedSurvives(cfg, c, n.log[..n.commitIndex], n.term, n.log, m);
      MoreApplied(c.hist.commits, n, n');
    }
  }

  lemma MoreApplied(commits: set<Commit>, n: NodeState, n': NodeState)
    requires CommitIndexOk(commits, n) && CommitIndexOk(commits, n')
    requires n.commitIndex <= n'.commitIndex && n.log[..n.commitIndex] <= n'.log && n.term <= n'.term
    ensures Extends(n, n')
  {
    assert n'.log[..n.commitIndex] == n.log[..n.commitIndex];
    SameResults(n.log, n'.log, n.commitIndex);
    JoinResults(n'.log, n.commitIndex, n'.commitIndex);
  }

  lemma RoundExtends(cfg: Config, n: NodeState, rs: seq<RpcResult>, timedOut: bool)
    requires n.lastApplied == n.commitIndex <= |n.log|
    ensures Extends(n, FinishRound(n, rs, Quorum(cfg), timedOut, cfg.keepVote))
  {
    RepliesLeaveVote(Tally(n, 1, false), rs);
    var m := ProcessReplies(Tally(n, 1, false), rs).node;
    ScanFinds(m, |m.log|, Quorum(cfg));
  }

  lemma ActorExtends(cfg: Config, c: Cluster, a: Action)
    requires Enabled(cfg, c, a) && Timely(c, a)
    requires Inv(cfg, c) && LogInv(cfg, c) && CommitInv(cfg, c) && UniqueLeaders(c.hist.elections)
    ensures Actor(a) in Do(cfg, c, a).servers
    ensures Extends(c.servers[Actor(a)].node, Do(cfg, c, a).servers[Actor(a)].node)
  {
    var n := c.servers[Actor(a)].node;
    assert ServerCommit(c.hist.acks, c.hist.commits, Actor(a), c.servers[Actor(a)]);
    match a {
      case HandleAppend(m) => AppendExtends(cfg, c, m);
      case EndRound(_, rs, timedOut) => RoundExtends(cfg, n, ResultsOf(rs), timedOut);
      case _ => PlainExtends(cfg, c, a);
    }
  }

  /** No timely action takes back a committed or applied entry, on any node. */
  lemma StepExtends(cfg: Config, c: Cluster, a: Action, i: NodeId)
    requires Timely(c, a)
    requires Inv(cfg, c) && LogInv(cfg, c) && CommitInv(cfg, c) && UniqueLeaders(c.hist.elections)
    requires i in c.servers && i in Step(cfg, c, a).servers
    ensures Extends(c.servers[i].node, Step(cfg, c, a).servers[i].node)
  {
    assert ServerCommit(c.hist.acks, c.hist.commits, i, c.servers[i]);
    if Enabled(cfg, c, a) {
      if Actor(a) == i {
        ActorExtends(cfg, c, a);
      } else {
        OthersStay(cfg, c, a, i);
      }
    }
  }

  lemma PlainExtends(cfg: Config, c: Cluster, a: Action)
    requires Enabled(cfg, c, a) && Timely(c, a) && !a.HandleAppend? && !a.EndRound?
    requires c.servers[Actor(a)].node.commitIndex <= |c.servers[Actor(a)].node.log|
    ensures Actor(a) in Do(cfg, c, a).servers
    ensures Extends(c.servers[Actor(a)].node, Do(cfg, c, a).servers[Actor(a)].node)
  {
  }

  /** Committed entries are never cut, and both indices only grow. */
  lemma {:induction false} NeverUndone(cfg: Config, run: seq<Action>, more: seq<Action>, i: NodeId)
    requires Peaceful(cfg, run + more) && i in cfg.members
    ensures i in After(cfg, run).servers && i in After(cfg, run + more).servers
    ensures Extends(NodeOf(After(cfg, run), i), NodeOf(After(cfg, run + more), i))
    decreases |more|
  {
    Present(cfg, run);
    Present(cfg, run + more);
    PeacefulBefore(cfg, run, more);
    CommitsAlways(cfg, run);
    var c := After(cfg, run);
    assert ServerCommit(c.hist.acks, c.hist.commits, i, c.servers[i]);
    if more == [] {
      assert run + more == run;
    } else {
      var fewer := more[..|more| - 1];
      assert run + more == run + fewer + [more[|more| - 1]];
      assert (run + more)[..|run + more| - 1] == run + fewer;
      PeacefulBefore(cfg, run + fewer, [more[|more| - 1]]);
      NeverUndone(cfg, run, fewer, i);
      CommitsAlways(cfg, run + fewer);
      AfterMore(cfg, run, more);
      StepExtends(cfg, After(cfg, run + fewer), more[|more| - 1], i);
      ExtendsFurther(NodeOf(c, i), NodeOf(After(cfg, run + fewer), i), NodeOf(After(cfg, run + more), i));
    }
  }

  lemma ExtendsFurther(n1: NodeState, n2: NodeState, n3: NodeState)
    requires Extends(n1, n2) && Extends(n2, n3)
    ensures Extends(n1, n3)
  {
    assert n1.log[..n1.commitIndex] == n2.log[..n2.commitIndex][..n1.commitIndex];
    assert n3.log[..n1.commitIndex] == n3.log[..n2.commitIndex][..n1.commitIndex];
  }

  /** No index is ever applied with two different commands, on any nodes, at any two moments. */
  lemma AppliedOnce(cfg: Config, run: seq<Action>, more: seq<Action>, i: NodeId, j: NodeId, k: nat)
    requires Peaceful(cfg, run + more) && i in cfg.members && j in cfg.members
    requires i in After(cfg, run).servers && j in After(cfg, run + more).servers
    requires k < |NodeOf(After(cfg, run), i).applied| && k < |NodeOf(After(cfg, run + more), j).applied|
    ensures NodeOf(After(cfg, run), i).applied[k] == NodeOf(After(cfg, run + more), j).applied[k]
  {
    NeverUndone(cfg, run, more, i);
    var c := After(cfg, run + more);
    StateMachineSafety(cfg, run + more, i, j);
    StateMachineSafety(cfg, run + more, j, i);
    AppliedAgree(NodeOf(c, i), NodeOf(c, j));
  }

  lemma AppliedAgree(n: NodeState, m: NodeState)
    requires AppliesCommitted(n) && AppliesCommitted(m)
    requires n.commitIndex <= m.commitIndex ==> n.log[..n.commitIndex] <= m.log[..m.commitIndex]
    requires m.commitIndex <= n.commitIndex ==> m.log[..m.commitIndex] <= n.log[..n.commitIndex]
    ensures n.applied <= m.applied || m.applied <= n.applied
  {
    var a, b := if n.commitIndex <= m.commitIndex then n else m, if n.commitIndex <= m.commitIndex then m else n;
    assert b.log[..a.commitIndex] == b.log[..b.commitIndex][..a.commitIndex] == a.log[..a.commitIndex];
    SameResults(a.log, b.log, a.commitIndex);
    JoinResults(b.log, a.commitIndex, b.commitIndex);
  }

  /** Leader completeness over time: what any node has ever committed begins the log of every
      later node that leads a higher term. */
  lemma LeadersHoldCommitted(cfg: Config, run: seq<Action>, more: seq<Action>, i: NodeId, j: NodeId)
    requires Peaceful(cfg, run + more) && i in After(cfg, run).servers && j in After(cfg, run + more).servers
    requires NodeOf(After(cfg, run + more), j).role.Leader?
    requires NodeOf(After(cfg, run), i).term < NodeOf(After(cfg, run + more), j).term
    ensures CommittedLog(After(cfg, run), i) <= NodeOf(After(cfg, run + more), j).log
  {
    var c, c' := After(cfg, run), After(cfg, run + more);
    PeacefulBefore(cfg, run, more);
    CommitsAlways(cfg, run);
    CommitsAlways(cfg, run + more);
    RunGrows(cfg, run, more);
    var n, m := NodeOf(c, i), NodeOf(c', j);
    assert ServerCommit(c.hist.acks, c.hist.commits, i, c.servers[i]);
    assert ServerOk(cfg, c'.hist.ballots, c'.hist.elections, j, c'.servers[j]);
    assert ServerLog(cfg, c'.hist.elections, c'.hist.termLogs, c'.net.appends, j, c'.servers[j]);
    if n.commitIndex > 0 {
      var k :| k in c.hist.commits && k.slot.term <= n.term && n.log[..n.commitIndex] <= k.log;
      assert CommitOk(cfg, c'.hist.elections, c'.hist.termLogs, c'.hist.acks, k);
      LeaderCompleteness(cfg, c', k, Slot(m.term, j));
      LeaderLogFacts(c'.hist.elections, c'.hist.termLogs, Slot(m.term, j));
    }
  }

  /** Match index soundness: as long as a peer stays in the leader's term, its log begins with as
      much of the leader's log as the leader has it matching. */
  lemma MatchIndexSound(cfg: Config, run: seq<Action>, i: NodeId, p: NodeId)
    requires Peaceful(cfg, run) && i in After(cfg, run).servers && p in After(cfg, run).servers
    requires var c := After(cfg, run);
      && NodeOf(c, i).role.Leader? && !c.servers[i].thread.Won? && p in NodeOf(c, i).matchIndex
      && NodeOf(c, p).term == NodeOf(c, i).term
    ensures var n, q := NodeOf(After(cfg, run), i), NodeOf(After(cfg, run), p);
      n.matchIndex[p] <= |n.log| && n.log[..n.matchIndex[p]] <= q.log
  {
    var c := After(cfg, run);
    CommitsAlways(cfg, run);
    assert ServerCommit(c.hist.acks, c.hist.commits, i, c.servers[i]);
    var n, q := NodeOf(c, i), NodeOf(c, p);
    var log := n.log[..n.matchIndex[p]];
    if n.matchIndex[p] > 0 {
      assert AckOk(c.hist.elections, c.hist.termLogs, c.servers, Ack(p, Slot(n.term, i), log));
      assert Kept(c.hist.elections, n.term, log, q.log, q.term);
    }
  }

  /** No request announces a commit index beyond the entries it shows, so clamping by the length of
      the follower's own log commits only entries the leader had committed. */
  lemma ClampIsSound(cfg: Config, run: seq<Action>, m: AppendMsg)
    requires Peaceful(cfg, run) && m in After(cfg, run).net.appends && m.to in After(cfg, run).servers
    ensures m.req.leaderCommit <= m.req.prevIndex + |m.req.entries| == |m.log|
    ensures var n := NodeOf(After(cfg, run), m.to);
      var (n', reply) := HandleAppendEntries(n, m.req);
      reply.success && m.req.leaderCommit > n.commitIndex ==>
        n'.commitIndex == m.req.leaderCommit <= |n'.log| && n'.log[..n'.commitIndex] == m.log[..m.req.leaderCommit]
  {
    var c := After(cfg, run);
    CommitsAlways(cfg, run);
    assert AppendOk(cfg, c.hist.elections, c.hist.termLogs, m);
    assert AppendCommit(c.hist.commits, m);
    assert ServerLog(cfg, c.hist.elections, c.hist.termLogs, c.net.appends, m.to, c.servers[m.to]);
    SentLogFacts(cfg, c.hist.elections, c.hist.termLogs, m);
    HandleAppendLog(c.hist.termLogs, NodeOf(c, m.to), m);
    ClampAt(NodeOf(c, m.to), m);
  }

  lemma ClampAt(n: NodeState, m: AppendMsg)
    requires m.req.leaderCommit <= |m.log|
    requires var (n', reply) := HandleAppendEntries(n, m.req); reply.success ==> m.log <= n'.log
    ensures var (n', reply) := HandleAppendEntries(n, m.req);
      reply.success && m.req.leaderCommit > n.commitIndex ==>
        n'.commitIndex == m.req.leaderCommit <= |n'.log| && n'.log[..n'.commitIndex] == m.log[..m.req.leaderCommit]
  {
  }
}
