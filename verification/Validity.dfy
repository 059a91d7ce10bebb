/** Nothing comes from nowhere: every command in a log or a request was proposed before. It holds
    for every run, whenever terms are adopted. `KvReplicas` adds the applied results. */
module Validity {
  import opened RaftTypes
  import opened RaftSteps
  import opened Cluster
  import opened ElectionSafety
  import opened AnyRun

  /** The commands that were proposed in a run, to whatever node. */
  ghost function ProposedIn(run: seq<Action>): set<Bytes> {
    set k | 0 <= k < |run| && run[k].ProposeCommand? :: run[k].command
  }

  ghost function ProposedBy(a: Action): set<Bytes> {
    if a.ProposeCommand? then {a.command} else {}
  }

  ghost predicate AllFrom(proposed: set<Bytes>, log: Log) {
    forall k :: 0 <= k < |log| ==> log[k].command in proposed
  }

  ghost predicate LogsFrom(proposed: set<Bytes>, servers: Servers) {
    forall i :: i in servers ==> AllFrom(proposed, servers[i].node.log)
  }

  ghost predicate AppendsFrom(proposed: set<Bytes>, appends: set<AppendMsg>) {
    forall m :: m in appends ==> AllFrom(proposed, m.log)
  }

  /** The append loop takes every entry from one side or the other. */
  lemma {:induction false} MergedFrom(proposed: set<Bytes>, log: Log, at: nat, entries: Log)
    requires at <= |log| && AllFrom(proposed, log) && AllFrom(proposed, entries)
    ensures AllFrom(proposed, MergeEntries(log, at, entries))
    decreases |entries|
  {
    if entries != [] {
      if at < |log| && log[at].term == entries[0].term {
        MergedFrom(proposed, log, at + 1, entries[1..]);
      } else {
        MergedFrom(proposed, log[..at] + [entries[0]], at + 1, entries[1..]);
      }
    }
  }

  lemma AcceptedFrom(cfg: Config, c: Cluster, m: AppendMsg, proposed: set<Bytes>)
    requires AppendsBuilt(cfg, c.net.appends) && m in c.net.appends && m.to in c.servers
    requires LogsFrom(proposed, c.servers) && AppendsFrom(proposed, c.net.appends)
    ensures AllFrom(proposed, HandleAppendEntries(c.servers[m.to].node, m.req).0.log)
  {
    var n := c.servers[m.to].node;
    assert SentByPeer(cfg, m) && AllFrom(proposed, m.log) && AllFrom(proposed, n.log);
    if m.req.prevIndex <= |n.log| {
      MergedFrom(proposed, n.log, m.req.prevIndex, m.req.entries);
    }
  }

  lemma PlainKeepsLog(cfg: Config, c: Cluster, a: Action)
    requires Enabled(cfg, c, a) && !a.HandleAppend? && !a.EndRound? && !a.ProposeCommand?
    ensures Actor(a) in Do(cfg, c, a).servers
    ensures Do(cfg, c, a).servers[Actor(a)].node.log == c.servers[Actor(a)].node.log
  {
  }

  lemma RoundKeepsLog(cfg: Config, n: NodeState, rs: seq<RpcResult>, timedOut: bool)
    ensures FinishRound(n, rs, Quorum(cfg), timedOut, cfg.keepVote).log == n.log
  {
    RepliesLeaveVote(Tally(n, 1, false), rs);
  }

  lemma ProposeFrom(c: Cluster, i: NodeId, command: Bytes, proposed: set<Bytes>)
    requires i in c.servers && LogsFrom(proposed, c.servers)
    ensures AllFrom(proposed + {command}, DoPropose(c, i, command).servers[i].node.log)
  {
    assert AllFrom(proposed, c.servers[i].node.log);
  }

  /** What an action does to the log of the node that takes it. */
  lemma ActorFrom(cfg: Config, c: Cluster, a: Action, proposed: set<Bytes>)
    requires Enabled(cfg, c, a) && AppendsBuilt(cfg, c.net.appends)
    requires LogsFrom(proposed, c.servers) && AppendsFrom(proposed, c.net.appends)
    ensures Actor(a) in Do(cfg, c, a).servers
    ensures AllFrom(proposed + ProposedBy(a), Do(cfg, c, a).servers[Actor(a)].node.log)
  {
    assert AllFrom(proposed, c.servers[Actor(a)].node.log);
    match a {
      case HandleAppend(m) => AcceptedFrom(cfg, c, m, proposed);
      case EndRound(i, rs, timedOut) => RoundKeepsLog(cfg, c.servers[i].node, ResultsOf(rs), timedOut);
      case ProposeCommand(i, command) => ProposeFrom(c, i, command, proposed);
      case _ => PlainKeepsLog(cfg, c, a);
    }
  }

  lemma LogsFromNext(cfg: Config, c: Cluster, a: Action, proposed: set<Bytes>)
    requires Enabled(cfg, c, a) && AppendsBuilt(cfg, c.net.appends)
    requires LogsFrom(proposed, c.servers) && AppendsFrom(proposed, c.net.appends)
    ensures LogsFrom(proposed + ProposedBy(a), Do(cfg, c, a).servers)
  {
    var servers := Do(cfg, c, a).servers;
    forall i | i in servers ensures AllFrom(proposed + ProposedBy(a), servers[i].node.log) {
      if i == Actor(a) {
        ActorFrom(cfg, c, a, proposed);
      } else {
        OthersStay(cfg, c, a, i);
      }
    }
  }

  lemma SentFrom(cfg: Config, c: Cluster, a: Action, proposed: set<Bytes>)
    requires Enabled(cfg, c, a) && LogsFrom(proposed, c.servers) && AppendsFrom(proposed, c.net.appends)
    ensures AppendsFrom(proposed + ProposedBy(a), Do(cfg, c, a).net.appends)
  {
    forall m | m in Do(cfg, c, a).net.appends ensures AllFrom(proposed, m.log) {
      if m !in c.net.appends {
        assert a.StartRound? && m.log == c.servers[a.id].node.log;
      }
    }
  }

  /** Validity: in every run, all commands in logs and requests were proposed in it. */
  lemma {:induction false} OnlyProposed(cfg: Config, run: seq<Action>)
    ensures LogsFrom(ProposedIn(run), After(cfg, run).servers)
    ensures AppendsFrom(ProposedIn(run), After(cfg, run).net.appends)
    decreases |run|
  {
    if run != [] {
      var before, a := run[..|run| - 1], run[|run| - 1];
      var c := After(cfg, before);
      OnlyProposed(cfg, before);
      BaseAlways(cfg, before);
      if Enabled(cfg, c, a) {
        LogsFromNext(cfg, c, a, ProposedIn(before));
        SentFrom(cfg, c, a, ProposedIn(before));
      }
      ProposedSplits(run);
    }
  }

  lemma ProposedSplits(run: seq<Action>)
    requires run != []
    ensures ProposedIn(run) == ProposedIn(run[..|run| - 1]) + ProposedBy(run[|run| - 1])
  {
    var before := run[..|run| - 1];
    forall d | d in ProposedIn(run) ensures d in ProposedIn(before) + ProposedBy(run[|run| - 1]) {
      var k :| 0 <= k < |run| && run[k].ProposeCommand? && run[k].command == d;
      assert k < |before| ==> before[k] == run[k];
    }
    forall d | d in ProposedIn(before) ensures d in ProposedIn(run) {
      var k :| 0 <= k < |before| && before[k].ProposeCommand? && before[k].command == d;
      assert run[k] == before[k];
    }
  }
}
