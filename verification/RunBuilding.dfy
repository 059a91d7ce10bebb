/** Building runs: what sequences of actions bring about, for clusters of any size.

    The lemmas move within a set of clusters that no action leaves (`Reached`); taking for it all
    clusters that runs of some kind reach turns the last cluster built into a run. */
module RunBuilding {
  import opened RaftTypes
  import opened RaftSteps
  import opened Cluster
  import opened ElectionSafety
  import opened LogMerge
  import opened AnyRun

  // ----- clusters within reach -----

  ghost predicate StaysIn(cfg: Config, R: iset<Cluster>, c: Cluster, a: Action) {
    c in R && Enabled(cfg, c, a) && !a.Adopt? ==> Do(cfg, c, a) in R
  }

  ghost predicate PeersOnly(cfg: Config, c: Cluster) {
    forall i :: i in c.servers ==>
      && c.servers[i].node.nextIndex.Keys <= cfg.members - {i}
      && c.servers[i].node.matchIndex.Keys <= cfg.members - {i}
  }

  /** `c` is one of the clusters `R`, which no action leaves, except perhaps the adoption of a term. */
  ghost predicate Reached(cfg: Config, R: iset<Cluster>, c: Cluster) {
    && c in R
    && (forall c, a {:trigger StaysIn(cfg, R, c, a)} :: StaysIn(cfg, R, c, a))
    && (forall c {:trigger PeersOnly(cfg, c)} :: c in R ==> PeersOnly(cfg, c))
  }

  /** `c'` comes after `c`: same nodes, and no message, election or acknowledgement is forgotten. */
  ghost predicate Later(cfg: Config, R: iset<Cluster>, c: Cluster, c': Cluster) {
    && Reached(cfg, R, c') && c'.servers.Keys == c.servers.Keys
    && c.net.appends <= c'.net.appends && c.hist.elections.Keys <= c'.hist.elections.Keys
    && c.hist.acks <= c'.hist.acks
  }

  lemma Act(cfg: Config, R: iset<Cluster>, c: Cluster, a: Action) returns (c': Cluster)
    requires Reached(cfg, R, c) && Enabled(cfg, c, a) && !a.Adopt?
    ensures c' == Do(cfg, c, a) && Later(cfg, R, c, c')
  {
    assert StaysIn(cfg, R, c, a);
    c' := Do(cfg, c, a);
  }

  /** All that prompt runs can reach after `run`. */
  ghost predicate PromptlyAfter(cfg: Config, run: seq<Action>, c: Cluster) {
    exists more :: Prompt(cfg, run + more) && After(cfg, run + more) == c
  }

  lemma OneMoreStep(cfg: Config, run: seq<Action>, a: Action)
    ensures After(cfg, run + [a]) == Step(cfg, After(cfg, run), a)
    ensures Prompt(cfg, run + [a]) <==> Prompt(cfg, run) && Timely(After(cfg, run), a)
  {
    assert (run + [a])[..|run|] == run;
  }

  lemma AllPeersOnly(cfg: Config, run: seq<Action>)
    ensures PeersOnly(cfg, After(cfg, run))
  {
    var c := After(cfg, run);
    BaseAlways(cfg, run);
    forall i | i in c.servers ensures
      c.servers[i].node.nextIndex.Keys <= cfg.members - {i} && c.servers[i].node.matchIndex.Keys <= cfg.members - {i}
    {
      Facts(cfg, c, i);
    }
  }

  lemma PromptRuns(cfg: Config, run: seq<Action>) returns (R: iset<Cluster>)
    requires Prompt(cfg, run)
    ensures Reached(cfg, R, After(cfg, run)) && forall c :: c in R ==> PromptlyAfter(cfg, run, c)
  {
    R := iset c | PromptlyAfter(cfg, run, c);
    assert run + [] == run;
    forall c, a ensures StaysIn(cfg, R, c, a) {
      if c in R && Enabled(cfg, c, a) && !a.Adopt? {
        var more :| Prompt(cfg, run + more) && After(cfg, run + more) == c;
        OneMoreStep(cfg, run + more, a);
        assert run + more + [a] == run + (more + [a]);
      }
    }
    forall c | c in R ensures PeersOnly(cfg, c) {
      var more :| Prompt(cfg, run + more) && After(cfg, run + more) == c;
      AllPeersOnly(cfg, run + more);
    }
  }

  /** All that any runs can reach after `run`. */
  ghost predicate ReachableAfter(cfg: Config, run: seq<Action>, c: Cluster) {
    exists more :: After(cfg, run + more) == c
  }

  ghost predicate AdoptsIn(cfg: Config, R: iset<Cluster>, c: Cluster, i: NodeId) {
    c in R && Enabled(cfg, c, Adopt(i)) ==> DoAdopt(c, i) in R
  }

  /** Adopting a term, however late, does not leave R either. */
  ghost predicate Closed(cfg: Config, R: iset<Cluster>) {
    forall c, i {:trigger AdoptsIn(cfg, R, c, i)} :: AdoptsIn(cfg, R, c, i)
  }

  lemma RunsFrom(cfg: Config, run: seq<Action>) returns (R: iset<Cluster>)
    ensures Reached(cfg, R, After(cfg, run)) && Closed(cfg, R) && forall c :: c in R ==> ReachableAfter(cfg, run, c)
  {
    R := iset c | ReachableAfter(cfg, run, c);
    assert run + [] == run;
    forall c, a | c in R && Enabled(cfg, c, a) ensures Do(cfg, c, a) in R {
      var more :| After(cfg, run + more) == c;
      OneMoreStep(cfg, run + more, a);
      assert run + more + [a] == run + (more + [a]);
    }
    forall c, i ensures AdoptsIn(cfg, R, c, i) {
      if c in R && Enabled(cfg, c, Adopt(i)) {
        assert Do(cfg, c, Adopt(i)) in R;
      }
    }
    forall c, a ensures StaysIn(cfg, R, c, a) {
    }
    forall c | c in R ensures PeersOnly(cfg, c) {
      var more :| After(cfg, run + more) == c;
      AllPeersOnly(cfg, run + more);
    }
  }

  lemma AdoptNow(cfg: Config, R: iset<Cluster>, c: Cluster, i: NodeId) returns (c': Cluster)
    requires Reached(cfg, R, c) && Closed(cfg, R) && Enabled(cfg, c, Adopt(i))
    ensures Later(cfg, R, c, c') && OnlyMoved(c, c', {i})
    ensures c'.servers[i] == Server(AdoptTerm(c.servers[i].node, c.servers[i].thread.newer.value), Idle)
  {
    assert AdoptsIn(cfg, R, c, i);
    c' := DoAdopt(c, i);
    assert PeersOnly(cfg, c');
  }

  /** Only the servers in `moved` differ. */
  ghost predicate OnlyMoved(c: Cluster, c': Cluster, moved: set<NodeId>) {
    c'.servers.Keys == c.servers.Keys &&
    forall j :: j in c.servers && j !in moved ==> c'.servers[j] == c.servers[j]
  }

  ghost predicate Campaigning(c: Cluster, i: NodeId) {
    && i in c.servers && Asking(c.servers[i].thread) && c.servers[i].node.role.Candidate?
    && c.servers[i].thread.since == c.servers[i].node.term
  }

  /** What `v` answers to candidate `i` as things stand. */
  ghost function Answer(c: Cluster, i: NodeId, v: NodeId): (NodeState, VoteReply)
    requires i in c.servers && v in c.servers
  {
    HandleRequestVote(c.servers[v].node, BuildVoteRequest(c.servers[i].node, i))
  }

  lemma GetVote(cfg: Config, R: iset<Cluster>, c: Cluster, i: NodeId, v: NodeId) returns (c': Cluster)
    requires Reached(cfg, R, c) && c.servers.Keys == cfg.members && Campaigning(c, i)
    requires v in cfg.members && v != i && v !in c.servers[i].thread.votes && Answer(c, i, v).1.granted
    ensures Later(cfg, R, c, c') && OnlyMoved(c, c', {i, v}) && Campaigning(c', i)
    ensures c'.servers[v] == c.servers[v].(node := Answer(c, i, v).0)
    ensures c'.servers[i].node == c.servers[i].node
    ensures c'.servers[i].thread.votes.Keys == c.servers[i].thread.votes.Keys + {v}
  {
    var req := BuildVoteRequest(c.servers[i].node, i);
    var m := VoteMsg(v, req, c.servers[i].thread.since);
    var c1 := Act(cfg, R, c, AskVote(i, v, req));
    var c2 := Act(cfg, R, c1, HandleVote(m));
    var r := VoteReplyMsg(m, Answer(c, i, v).1, c.servers[v].node.log);
    assert r in c2.net.voteReplies;
    c' := Act(cfg, R, c2, CountVote(i, r));
  }

  lemma {:induction false} GetVotes(cfg: Config, R: iset<Cluster>, c: Cluster, i: NodeId, voters: set<NodeId>)
    returns (c': Cluster)
    requires Reached(cfg, R, c) && c.servers.Keys == cfg.members && Campaigning(c, i)
    requires voters <= cfg.members - {i} && voters !! c.servers[i].thread.votes.Keys
    requires forall v :: v in voters ==> Answer(c, i, v).1.granted
    ensures Later(cfg, R, c, c') && OnlyMoved(c, c', voters + {i}) && Campaigning(c', i)
    ensures forall v :: v in voters ==> c'.servers[v] == c.servers[v].(node := Answer(c, i, v).0)
    ensures c'.servers[i].node == c.servers[i].node
    ensures c'.servers[i].thread.votes.Keys == c.servers[i].thread.votes.Keys + voters
    decreases voters
  {
    if voters == {} {
      c' := c;
    } else {
      var v :| v in voters;
      var c1 := GetVote(cfg, R, c, i, v);
      forall w | w in voters - {v} ensures c1.servers[w] == c.servers[w] && Answer(c1, i, w) == Answer(c, i, w) {
      }
      c' := GetVotes(cfg, R, c1, i, voters - {v});
      assert c'.servers[v] == c1.servers[v];
    }
  }

  /** The state of node `i` when it has just set up its leadership. */
  function NewLeader(cfg: Config, n: NodeState, i: NodeId): NodeState {
    InitLeader(n.(role := Leader), cfg.members - {i})
  }

  lemma TakeOffice(cfg: Config, R: iset<Cluster>, c: Cluster, i: NodeId) returns (c': Cluster)
    requires Reached(cfg, R, c) && c.servers.Keys == cfg.members && Campaigning(c, i)
    requires |c.servers[i].thread.votes| + 1 >= Quorum(cfg)
    ensures Later(cfg, R, c, c') && OnlyMoved(c, c', {i})
    ensures c'.servers[i] == Server(NewLeader(cfg, c.servers[i].node, i), Idle)
    ensures Slot(c.servers[i].node.term, i) in c'.hist.elections
  {
    var c1 := Act(cfg, R, c, EndElection(i));
    c' := Act(cfg, R, c1, SetIndices(i));
  }

  lemma Win(cfg: Config, R: iset<Cluster>, c: Cluster, i: NodeId, voters: set<NodeId>) returns (c': Cluster)
    requires Reached(cfg, R, c) && c.servers.Keys == cfg.members && Campaigning(c, i)
    requires c.servers[i].thread.votes == map[] && voters <= cfg.members - {i} && |voters| + 1 >= Quorum(cfg)
    requires forall v :: v in voters ==> Answer(c, i, v).1.granted
    ensures Later(cfg, R, c, c') && OnlyMoved(c, c', voters + {i})
    ensures forall v :: v in voters ==> c'.servers[v] == c.servers[v].(node := Answer(c, i, v).0)
    ensures c'.servers[i] == Server(NewLeader(cfg, c.servers[i].node, i), Idle)
    ensures Slot(c.servers[i].node.term, i) in c'.hist.elections
  {
    var c1 := GetVotes(cfg, R, c, i, voters);
    assert |c1.servers[i].thread.votes| == |c1.servers[i].thread.votes.Keys|;
    assert c1.servers[i].thread.votes.Keys == voters;
    c' := TakeOffice(cfg, R, c1, i);
  }

  // ----- rounds -----

  /** What `v` answers to request `m` as things stand. */
  ghost function Reaction(c: Cluster, m: AppendMsg): (NodeState, AppendReply)
    requires m.to in c.servers
  {
    HandleAppendEntries(c.servers[m.to].node, m.req)
  }

  ghost predicate Addressed(c: Cluster, msgs: map<NodeId, AppendMsg>, peers: set<NodeId>) {
    forall v :: v in peers ==> v in c.servers && v in msgs && msgs[v] in c.net.appends && msgs[v].to == v
  }

  /** `rs` are the answers of `peers` to `msgs`, one each. */
  ghost predicate Answers(c: Cluster, msgs: map<NodeId, AppendMsg>, peers: set<NodeId>, rs: seq<AppendReplyMsg>)
    requires Addressed(c, msgs, peers)
  {
    && |rs| == |peers|
    && (forall k :: 0 <= k < |rs| ==> rs[k].msg.to in peers && rs[k].msg == msgs[rs[k].msg.to] &&
                                      rs[k].reply == Reaction(c, msgs[rs[k].msg.to]).1)
    && (forall j, k :: 0 <= j < k < |rs| ==> rs[j].msg.to != rs[k].msg.to)
  }

  lemma Deliver(cfg: Config, R: iset<Cluster>, c: Cluster, m: AppendMsg) returns (c': Cluster)
    requires Reached(cfg, R, c) && c.servers.Keys == cfg.members && m in c.net.appends && m.to in c.servers
    ensures Later(cfg, R, c, c') && OnlyMoved(c, c', {m.to})
    ensures c'.servers[m.to] == c.servers[m.to].(node := Reaction(c, m).0)
    ensures c'.net.appendReplies == c.net.appendReplies + {AppendReplyMsg(m, Reaction(c, m).1)}
  {
    c' := Act(cfg, R, c, HandleAppend(m));
  }

  lemma {:induction false} DeliverAll(cfg: Config, R: iset<Cluster>, c: Cluster, msgs: map<NodeId, AppendMsg>,
                                      peers: set<NodeId>)
    returns (c': Cluster, rs: seq<AppendReplyMsg>)
    requires Reached(cfg, R, c) && c.servers.Keys == cfg.members && Addressed(c, msgs, peers)
    ensures Later(cfg, R, c, c') && OnlyMoved(c, c', peers)
    ensures forall v :: v in peers ==> c'.servers[v] == c.servers[v].(node := Reaction(c, msgs[v]).0)
    ensures Answers(c, msgs, peers, rs)
    ensures c.net.appendReplies <= c'.net.appendReplies
    ensures forall k :: 0 <= k < |rs| ==> rs[k] in c'.net.appendReplies
    decreases peers
  {
    if peers == {} {
      c', rs := c, [];
    } else {
      var v :| v in peers;
      var c1 := Deliver(cfg, R, c, msgs[v]);
      var r := AppendReplyMsg(msgs[v], Reaction(c, msgs[v]).1);
      forall w | w in peers - {v}
        ensures c1.servers[w] == c.servers[w] && Reaction(c1, msgs[w]) == Reaction(c, msgs[w])
      {
      }
      var rest;
      c', rest := DeliverAll(cfg, R, c1, msgs, peers - {v});
      assert c'.servers[v] == c1.servers[v];
      rs := rest + [r];
      OneMoreReply(c, c1, msgs, peers, v, rest);
    }
  }

  lemma OneMoreReply(c: Cluster, c1: Cluster, msgs: map<NodeId, AppendMsg>, peers: set<NodeId>, v: NodeId,
                     rest: seq<AppendReplyMsg>)
    requires Addressed(c, msgs, peers) && v in peers && Addressed(c1, msgs, peers - {v})
    requires Answers(c1, msgs, peers - {v}, rest)
    requires forall w :: w in peers - {v} ==> Reaction(c1, msgs[w]) == Reaction(c, msgs[w])
    ensures Answers(c, msgs, peers, rest + [AppendReplyMsg(msgs[v], Reaction(c, msgs[v]).1)])
  {
  }

  /** The request for `p` in a round that leader `i` starts now. */
  ghost function RoundMsg(cfg: Config, c: Cluster, i: NodeId, p: NodeId): AppendMsg
    requires i in c.servers
  {
    var n := FillNextIndex(c.servers[i].node, cfg.members - {i});
    AppendMsg(p, BuildAppend(n, i, p), n.log)
  }

  ghost predicate Leading(c: Cluster, i: NodeId) {
    i in c.servers && c.servers[i].node.role.Leader? && c.servers[i].thread.Idle?
  }

  lemma BeginRound(cfg: Config, R: iset<Cluster>, c: Cluster, i: NodeId) returns (c': Cluster)
    requires Reached(cfg, R, c) && c.servers.Keys == cfg.members && Leading(c, i)
    ensures Later(cfg, R, c, c') && OnlyMoved(c, c', {i}) && c'.servers[i].thread.Round?
    ensures c'.servers[i].node == FillNextIndex(c.servers[i].node, cfg.members - {i})
    ensures forall p :: p in cfg.members - {i} ==>
      RoundMsg(cfg, c, i, p) in c'.servers[i].thread.sent && RoundMsg(cfg, c, i, p) in c'.net.appends
  {
    c' := Act(cfg, R, c, StartRound(i));
  }

  lemma CloseRound(cfg: Config, R: iset<Cluster>, c: Cluster, i: NodeId, rs: seq<AppendReplyMsg>, timedOut: bool)
    returns (c': Cluster)
    requires Reached(cfg, R, c) && i in cfg.members && i in c.servers && c.servers[i].thread.Round?
    requires AnswersTo(c, c.servers[i].thread.sent, rs)
    ensures Later(cfg, R, c, c') && OnlyMoved(c, c', {i})
    ensures c'.servers[i] ==
            Server(FinishRound(c.servers[i].node, ResultsOf(rs), Quorum(cfg), timedOut, cfg.keepVote), Idle)
  {
    c' := Act(cfg, R, c, EndRound(i, rs, timedOut));
  }

  /** A round in which exactly `peers` answer. */
  lemma DoRound(cfg: Config, R: iset<Cluster>, c: Cluster, i: NodeId, peers: set<NodeId>, timedOut: bool)
    returns (c': Cluster, rs: seq<AppendReplyMsg>)
    requires Reached(cfg, R, c) && c.servers.Keys == cfg.members && Leading(c, i) && peers <= cfg.members - {i}
    ensures Later(cfg, R, c, c') && OnlyMoved(c, c', peers + {i})
    ensures forall p :: p in cfg.members - {i} ==> RoundMsg(cfg, c, i, p) in c'.net.appends
    ensures forall v :: v in peers ==>
      c'.servers[v] == c.servers[v].(node := Reaction(c, RoundMsg(cfg, c, i, v)).0)
    ensures |rs| == |peers|
    ensures forall k :: 0 <= k < |rs| ==>
      && rs[k].msg.to in peers && rs[k].msg == RoundMsg(cfg, c, i, rs[k].msg.to)
      && rs[k].reply == Reaction(c, RoundMsg(cfg, c, i, rs[k].msg.to)).1
    ensures forall j, k :: 0 <= j < k < |rs| ==> rs[j].msg.to != rs[k].msg.to
    ensures c'.servers[i] == Server(FinishRound(FillNextIndex(c.servers[i].node, cfg.members - {i}), ResultsOf(rs),
                                                Quorum(cfg), timedOut, cfg.keepVote), Idle)
  {
    var msgs := map p | p in cfg.members - {i} :: RoundMsg(cfg, c, i, p);
    var c1 := BeginRound(cfg, R, c, i);
    var sent := c1.servers[i].thread.sent;
    forall v | v in peers ensures c1.servers[v] == c.servers[v] && Reaction(c1, msgs[v]) == Reaction(c, msgs[v]) {
    }
    var c2;
    c2, rs := DeliverAll(cfg, R, c1, msgs, peers);
    assert c2.servers[i] == c1.servers[i];
    assert AnswersTo(c2, sent, rs);
    c' := CloseRound(cfg, R, c2, i, rs, timedOut);
  }

  // ----- what a round leaves behind at the leader -----

  ghost predicate Accepts(n: NodeState, r: RpcResult) {
    r.reply == Some(AppendReply(n.term, true)) && r.prevIndex + r.sent == |n.log|
  }

  ghost function PeersIn(rs: seq<RpcResult>): set<NodeId> {
    set k | 0 <= k < |rs| :: rs[k].peer
  }

  lemma {:induction false} TallyAccepts(n: NodeState, rs: seq<RpcResult>)
    requires forall k :: 0 <= k < |rs| ==> Accepts(n, rs[k])
    ensures var t := ProcessReplies(Tally(n, 1, false), rs);
      && !t.deposed && t.confirmations == 1 + |rs|
      && t.node.(nextIndex := n.nextIndex, matchIndex := n.matchIndex) == n
      && t.node.matchIndex.Keys == n.matchIndex.Keys + PeersIn(rs)
      && (forall p :: p in t.node.matchIndex ==>
            t.node.matchIndex[p] == if p in PeersIn(rs) then |n.log| else n.matchIndex[p])
      && (forall p :: p in PeersIn(rs) ==> p in t.node.nextIndex && t.node.nextIndex[p] == |n.log| + 1)
    decreases |rs|
  {
    if rs != [] {
      var fewer := rs[..|rs| - 1];
      TallyAccepts(n, fewer);
      assert PeersIn(rs) == PeersIn(fewer) + {rs[|rs| - 1].peer} by {
        forall p | p in PeersIn(rs) ensures p in PeersIn(fewer) || p == rs[|rs| - 1].peer {
          var k :| 0 <= k < |rs| && rs[k].peer == p;
          assert k < |rs| - 1 ==> fewer[k].peer == p;
        }
        forall p | p in PeersIn(fewer) ensures p in PeersIn(rs) {
          var k :| 0 <= k < |fewer| && fewer[k].peer == p;
          assert rs[k].peer == p;
        }
      }
      assert Accepts(n, rs[|rs| - 1]);
    }
  }

  lemma {:induction false} DistinctPeers(rs: seq<RpcResult>)
    requires forall j, k :: 0 <= j < k < |rs| ==> rs[j].peer != rs[k].peer
    ensures |PeersIn(rs)| == |rs|
    decreases |rs|
  {
    if rs == [] {
      assert PeersIn(rs) == {};
    } else {
      var fewer, last := rs[..|rs| - 1], rs[|rs| - 1].peer;
      DistinctPeers(fewer);
      assert PeersIn(rs) == PeersIn(fewer) + {last} by {
        forall p | p in PeersIn(rs) ensures p in PeersIn(fewer) || p == last {
          var k :| 0 <= k < |rs| && rs[k].peer == p;
          assert k < |rs| - 1 ==> fewer[k].peer == p;
        }
      }
    }
  }

  /** The leader has committed its whole log, which `peers` match. */
  ghost predicate Committed(n: NodeState, n': NodeState, peers: set<NodeId>) {
    && n'.role.Leader? && n'.term == n.term && n'.log == n.log && n'.commitIndex == |n.log|
    && forall p :: p in peers ==>
         && p in n'.matchIndex && n'.matchIndex[p] == |n.log|
         && p in n'.nextIndex && n'.nextIndex[p] == |n.log| + 1
  }

  /** Enough peers accept a log that ends in the leader's term: all of it is committed and applied. */
  lemma RoundCommits(cfg: Config, n: NodeState, rs: seq<RpcResult>)
    requires n.role.Leader? && n.lastApplied == n.commitIndex < |n.log| && LastTerm(n.log) == n.term
    requires forall k :: 0 <= k < |rs| ==> Accepts(n, rs[k])
    requires forall j, k :: 0 <= j < k < |rs| ==> rs[j].peer != rs[k].peer
    requires |rs| + 1 >= Quorum(cfg)
    ensures var n' := FinishRound(n, rs, Quorum(cfg), false, cfg.keepVote);
      && n'.applied == n.applied + Results(n.log, n.commitIndex, |n.log|)
      && Committed(n, n', PeersIn(rs))
  {
    TallyAccepts(n, rs);
    DistinctPeers(rs);
    var m := ProcessReplies(Tally(n, 1, false), rs).node;
    assert PeersIn(rs) <= Matching(m.matchIndex, |n.log|);
    SubsetSize(PeersIn(rs), Matching(m.matchIndex, |n.log|));
    assert Committable(m, |n.log|, Quorum(cfg));
  }

  /** No peer matches anything but those in `rs`, which are too few. */
  ghost predicate TooFew(cfg: Config, n: NodeState, rs: seq<RpcResult>) {
    && |rs| + 1 < Quorum(cfg)
    && (forall p :: p in n.matchIndex && p !in PeersIn(rs) ==> n.matchIndex[p] == 0)
  }

  lemma {:induction false} NothingCommittable(n: NodeState, idx: nat, majority: nat)
    requires idx <= |n.log|
    requires forall j :: n.commitIndex < j <= idx ==> |Matching(n.matchIndex, j)| + 1 < majority
    ensures CommitScan(n, idx, majority) == n.commitIndex || idx < n.commitIndex
    decreases idx
  {
    if idx > n.commitIndex {
      assert |Matching(n.matchIndex, idx)| + 1 < majority;
      NothingCommittable(n, idx - 1, majority);
    }
  }

  /** Too few peers answer for too long: the leader steps down and forgets its vote. */
  lemma RoundStepsDown(cfg: Config, n: NodeState, rs: seq<RpcResult>)
    requires !cfg.keepVote && n.role.Leader? && n.lastApplied == n.commitIndex <= |n.log|
    requires forall k :: 0 <= k < |rs| ==> Accepts(n, rs[k])
    requires forall j, k :: 0 <= j < k < |rs| ==> rs[j].peer != rs[k].peer
    requires TooFew(cfg, n, rs)
    ensures var n' := FinishRound(n, rs, Quorum(cfg), true, cfg.keepVote);
      n'.(nextIndex := n.nextIndex, matchIndex := n.matchIndex) == n.(role := Follower, votedFor := None)
  {
    TallyAccepts(n, rs);
    DistinctPeers(rs);
    var m := ProcessReplies(Tally(n, 1, false), rs).node;
    forall j | m.commitIndex < j <= |m.log| ensures |Matching(m.matchIndex, j)| + 1 < Quorum(cfg) {
      assert Matching(m.matchIndex, j) <= PeersIn(rs);
      SubsetSize(Matching(m.matchIndex, j), PeersIn(rs));
    }
    NothingCommittable(m, |m.log|, Quorum(cfg));
  }

  /** One peer rejects: the leader goes one entry back for it and changes nothing else. */
  lemma RoundGoesBack(cfg: Config, n: NodeState, r: RpcResult)
    requires n.role.Leader? && n.lastApplied == n.commitIndex <= |n.log| && Quorum(cfg) >= 2
    requires r.reply == Some(AppendReply(n.term, false)) && r.peer in n.nextIndex && n.nextIndex[r.peer] > 1
    requires forall p :: p in n.matchIndex ==> n.matchIndex[p] == 0
    ensures FinishRound(n, [r], Quorum(cfg), false, cfg.keepVote) ==
            n.(nextIndex := n.nextIndex[r.peer := n.nextIndex[r.peer] - 1])
  {
    var rs, t := [r], Tally(n, 1, false);
    assert rs[..|rs| - 1] == [];
    assert ProcessReplies(t, rs) == ProcessReply(ProcessReplies(t, []), r);
    var m := ProcessReplies(t, rs).node;
    forall j | m.commitIndex < j <= |m.log| ensures |Matching(m.matchIndex, j)| + 1 < Quorum(cfg) {
      assert Matching(m.matchIndex, j) == {};
    }
    NothingCommittable(m, |m.log|, Quorum(cfg));
  }

  // ----- three kinds of round -----

  /** Leader `i` with replication indices set for all peers, nobody matching yet. */
  ghost predicate SetUp(cfg: Config, c: Cluster, i: NodeId) {
    && c.servers.Keys == cfg.members && Leading(c, i)
    && var n := c.servers[i].node;
       && n.nextIndex.Keys == cfg.members - {i} && n.lastApplied == n.commitIndex <= |n.log|
       && (forall p :: p in n.matchIndex ==> n.matchIndex[p] == 0)
  }

  /** As things stand, `v` accepts the leader's request and then holds all of its log. */
  ghost predicate WouldAccept(cfg: Config, c: Cluster, i: NodeId, v: NodeId) {
    && i in c.servers && v in c.servers
    && var m := RoundMsg(cfg, c, i, v);
       && Reaction(c, m).1 == AppendReply(c.servers[i].node.term, true)
       && m.req.prevIndex + |m.req.entries| == |c.servers[i].node.log|
  }

  lemma NothingToFill(cfg: Config, n: NodeState, i: NodeId)
    requires n.nextIndex.Keys == cfg.members - {i}
    ensures FillNextIndex(n, cfg.members - {i}) == n
  {
    assert (map p | p in cfg.members - {i} :: |n.log| + 1) + n.nextIndex == n.nextIndex;
  }

  lemma AcceptedResult(cfg: Config, c: Cluster, i: NodeId, r: AppendReplyMsg)
    requires WouldAccept(cfg, c, i, r.msg.to)
    requires r.msg == RoundMsg(cfg, c, i, r.msg.to) && r.reply == Reaction(c, r.msg).1
    ensures Accepts(c.servers[i].node, ResultOf(r))
  {
  }

  lemma RoundAnswers(cfg: Config, R: iset<Cluster>, c: Cluster, i: NodeId, peers: set<NodeId>, timedOut: bool)
    returns (c': Cluster, rs: seq<RpcResult>)
    requires Reached(cfg, R, c) && SetUp(cfg, c, i) && peers <= cfg.members - {i}
    requires forall v :: v in peers ==> WouldAccept(cfg, c, i, v)
    ensures Later(cfg, R, c, c') && OnlyMoved(c, c', peers + {i})
    ensures forall p :: p in cfg.members - {i} ==> RoundMsg(cfg, c, i, p) in c'.net.appends
    ensures forall v :: v in peers ==>
      c'.servers[v] == c.servers[v].(node := Reaction(c, RoundMsg(cfg, c, i, v)).0)
    ensures |rs| == |peers| && PeersIn(rs) <= peers
    ensures forall k :: 0 <= k < |rs| ==> Accepts(c.servers[i].node, rs[k])
    ensures forall j, k :: 0 <= j < k < |rs| ==> rs[j].peer != rs[k].peer
    ensures c'.servers[i] == Server(FinishRound(c.servers[i].node, rs, Quorum(cfg), timedOut, cfg.keepVote), Idle)
  {
    var replies;
    var n := c.servers[i].node;
    c', replies := DoRound(cfg, R, c, i, peers, timedOut);
    rs := ResultsOf(replies);
    NothingToFill(cfg, n, i);
    forall k | 0 <= k < |rs| ensures Accepts(n, rs[k]) && rs[k].peer in peers {
      AcceptedResult(cfg, c, i, replies[k]);
    }
  }

  lemma QuitRound(cfg: Config, R: iset<Cluster>, c: Cluster, i: NodeId, peers: set<NodeId>) returns (c': Cluster)
    requires Reached(cfg, R, c) && SetUp(cfg, c, i) && peers <= cfg.members - {i} && !cfg.keepVote
    requires forall v :: v in peers ==> WouldAccept(cfg, c, i, v)
    requires |peers| + 1 < Quorum(cfg)
    ensures Later(cfg, R, c, c') && OnlyMoved(c, c', peers + {i})
    ensures forall p :: p in cfg.members - {i} ==> RoundMsg(cfg, c, i, p) in c'.net.appends
    ensures forall v :: v in peers ==>
      c'.servers[v] == c.servers[v].(node := Reaction(c, RoundMsg(cfg, c, i, v)).0)
    ensures c'.servers[i].thread == Idle
    ensures var n := c.servers[i].node;
      c'.servers[i].node.(nextIndex := n.nextIndex, matchIndex := n.matchIndex) ==
        n.(role := Follower, votedFor := None)
  {
    var rs;
    c', rs := RoundAnswers(cfg, R, c, i, peers, true);
    RoundStepsDown(cfg, c.servers[i].node, rs);
  }

  lemma CommitRound(cfg: Config, R: iset<Cluster>, c: Cluster, i: NodeId, peers: set<NodeId>) returns (c': Cluster)
    requires Reached(cfg, R, c) && SetUp(cfg, c, i) && peers <= cfg.members - {i}
    requires forall v :: v in peers ==> WouldAccept(cfg, c, i, v)
    requires |peers| + 1 >= Quorum(cfg)
    requires var n := c.servers[i].node; n.commitIndex < |n.log| && LastTerm(n.log) == n.term
    ensures Later(cfg, R, c, c') && OnlyMoved(c, c', peers + {i})
    ensures forall v :: v in peers ==>
      c'.servers[v] == c.servers[v].(node := Reaction(c, RoundMsg(cfg, c, i, v)).0)
    ensures var n := c.servers[i].node;
      && c'.servers[i].node.applied == n.applied + Results(n.log, n.commitIndex, |n.log|)
      && Committed(n, c'.servers[i].node, peers) && c'.servers[i].thread.Idle?
  {
    var rs;
    c', rs := RoundAnswers(cfg, R, c, i, peers, false);
    RoundCommits(cfg, c.servers[i].node, rs);
    DistinctPeers(rs);
    SameSize(PeersIn(rs), peers);
  }

  lemma SameSize(a: set<NodeId>, b: set<NodeId>)
    requires a <= b && |a| == |b|
    ensures a == b
  {
    SubsetSize(a, b);
    if x :| x in b - a {
      SubsetSize(a, b - {x});
    }
  }

  lemma RejectedResult(cfg: Config, c: Cluster, i: NodeId, p: NodeId, replies: seq<AppendReplyMsg>)
    requires SetUp(cfg, c, i) && p in cfg.members - {i} && Quorum(cfg) >= 2 && c.servers[i].node.nextIndex[p] > 1
    requires |replies| == 1 && replies[0].msg.to == p
    requires replies[0].reply == AppendReply(c.servers[i].node.term, false)
    ensures var n := c.servers[i].node;
      FinishRound(FillNextIndex(n, cfg.members - {i}), ResultsOf(replies), Quorum(cfg), false, cfg.keepVote)
      == n.(nextIndex := n.nextIndex[p := n.nextIndex[p] - 1])
  {
    NothingToFill(cfg, c.servers[i].node, i);
    assert ResultsOf(replies) == [ResultOf(replies[0])];
    RoundGoesBack(cfg, c.servers[i].node, ResultOf(replies[0]));
  }

  lemma BackRound(cfg: Config, R: iset<Cluster>, c: Cluster, i: NodeId, p: NodeId) returns (c': Cluster)
    requires Reached(cfg, R, c) && SetUp(cfg, c, i) && p in cfg.members - {i} && Quorum(cfg) >= 2
    requires c.servers[i].node.nextIndex[p] > 1
    requires Reaction(c, RoundMsg(cfg, c, i, p)).1 == AppendReply(c.servers[i].node.term, false)
    ensures Later(cfg, R, c, c') && OnlyMoved(c, c', {i, p})
    ensures c'.servers[p] == c.servers[p].(node := Reaction(c, RoundMsg(cfg, c, i, p)).0)
    ensures var n := c.servers[i].node;
      c'.servers[i] == Server(n.(nextIndex := n.nextIndex[p := n.nextIndex[p] - 1]), Idle)
  {
    var replies;
    c', replies := DoRound(cfg, R, c, i, {p}, false);
    assert p in {p};
    RejectedResult(cfg, c, i, p, replies);
  }

  // ----- what groups of nodes have in common -----

  ghost predicate Follows(s: Server, term: Term, vote: Option<NodeId>, log: Log) {
    s.thread.Idle? && s.node.role.Follower? && s.node.term == term && s.node.votedFor == vote && s.node.log == log
  }

  /** What a group of followers has in common. */
  datatype Standing = Standing(term: Term, vote: Option<NodeId>, log: Log)

  ghost predicate All(c: Cluster, nodes: set<NodeId>, st: Standing) {
    forall v :: v in nodes ==> v in c.servers && Follows(c.servers[v], st.term, st.vote, st.log)
  }

  lemma AllKept(c: Cluster, c': Cluster, moved: set<NodeId>, nodes: set<NodeId>, st: Standing)
    requires OnlyMoved(c, c', moved) && All(c, nodes, st) && nodes !! moved
    ensures All(c', nodes, st)
  {
  }

  ghost predicate Blank(n: NodeState) {
    n.commitIndex == 0 && n.lastApplied == 0 && n.applied == []
  }

  /** A follower takes over entries that continue its log. */
  lemma TakesOver(n: NodeState, req: AppendRequest)
    requires n.term == req.term && req.prevIndex == |n.log| && PrevMatches(n.log, req)
    ensures var (n', reply) := HandleAppendEntries(n, req);
      && reply == AppendReply(n.term, true) && n'.log == n.log + req.entries
      && n'.role.Follower? && n'.term == n.term && n'.votedFor == n.votedFor
  {
    MergeAtEnd(n.log, req.entries);
  }

  /** Node `i` becomes candidate. */
  lemma Begin(cfg: Config, R: iset<Cluster>, c: Cluster, i: NodeId, t: Term, vote: Option<NodeId>, log: Log)
    returns (c': Cluster)
    requires Reached(cfg, R, c) && c.servers.Keys == cfg.members && i in cfg.members
    requires Follows(c.servers[i], t, vote, log) && Blank(c.servers[i].node)
    ensures Later(cfg, R, c, c') && OnlyMoved(c, c', {i}) && Stands(c', i, t + 1, log)
  {
    c' := Act(cfg, R, c, StartElection(i));
  }

  /** `i` is a candidate of term `t` that nobody has answered yet. */
  ghost predicate Stands(c: Cluster, i: NodeId, t: Term, log: Log) {
    && Campaigning(c, i) && c.servers[i].thread.votes == map[] && Blank(c.servers[i].node)
    && c.servers[i].node.term == t && c.servers[i].node.log == log && c.servers[i].node.votedFor == Some(i)
  }

  lemma GiveUp(cfg: Config, R: iset<Cluster>, c: Cluster, i: NodeId, t: Term, log: Log) returns (c': Cluster)
    requires Reached(cfg, R, c) && c.servers.Keys == cfg.members && Stands(c, i, t, log) && Quorum(cfg) >= 2
    ensures Later(cfg, R, c, c') && OnlyMoved(c, c', {i})
    ensures Follows(c'.servers[i], t, Some(i), log) && Blank(c'.servers[i].node)
  {
    assert |c.servers[i].thread.votes| == 0;
    c' := Act(cfg, R, c, EndElection(i));
  }

  /** A candidacy that nobody answers, and another one. */
  lemma StandTwice(cfg: Config, R: iset<Cluster>, c: Cluster, i: NodeId, t: Term, vote: Option<NodeId>, log: Log)
    returns (c': Cluster)
    requires Reached(cfg, R, c) && c.servers.Keys == cfg.members && i in cfg.members && Quorum(cfg) >= 2
    requires Rests(c, i, t, vote, log)
    ensures Later(cfg, R, c, c') && OnlyMoved(c, c', {i}) && Stands(c', i, t + 2, log)
  {
    var c1 := Begin(cfg, R, c, i, t, vote, log);
    var c2 := GiveUp(cfg, R, c1, i, t + 1, log);
    c' := Begin(cfg, R, c2, i, t + 1, Some(i), log);
  }

  /** `v` would vote for candidate `i`. */
  ghost predicate Supports(c: Cluster, i: NodeId, v: NodeId) {
    && i in c.servers && v in c.servers && v != i
    && c.servers[v].thread.Idle? && c.servers[v].node.role.Follower?
    && var n, m := c.servers[i].node, c.servers[v].node;
       (m.term < n.term || (m.term == n.term && m.votedFor == None)) && UpToDate(LastTerm(n.log), |n.log|, m.log)
  }

  ghost predicate Voted(s: Server, s': Server, t: Term, i: NodeId) {
    Follows(s', t, Some(i), s.node.log) && (Blank(s.node) ==> Blank(s'.node))
  }

  lemma WillGrant(c: Cluster, i: NodeId, v: NodeId)
    requires Supports(c, i, v)
    ensures Answer(c, i, v).1.granted
    ensures Voted(c.servers[v], c.servers[v].(node := Answer(c, i, v).0), c.servers[i].node.term, i)
  {
  }

  lemma OwnPeersOnly(cfg: Config, R: iset<Cluster>, c: Cluster, i: NodeId)
    requires Reached(cfg, R, c) && i in c.servers
    ensures c.servers[i].node.nextIndex.Keys <= cfg.members - {i} &&
      c.servers[i].node.matchIndex.Keys <= cfg.members - {i}
  {
    assert PeersOnly(cfg, c);
  }

  ghost predicate Leads(cfg: Config, c: Cluster, i: NodeId, t: Term, log: Log) {
    && SetUp(cfg, c, i) && Blank(c.servers[i].node)
    && c.servers[i].node.term == t && c.servers[i].node.log == log && c.servers[i].node.votedFor == Some(i)
  }

  /** `i` wins its term and sets up its leadership. */
  lemma LeadBy(cfg: Config, R: iset<Cluster>, c: Cluster, i: NodeId, t: Term, log: Log, voters: set<NodeId>)
    returns (c': Cluster)
    requires Reached(cfg, R, c) && c.servers.Keys == cfg.members && Stands(c, i, t, log)
    requires voters <= cfg.members - {i} && |voters| + 1 >= Quorum(cfg)
    requires forall v :: v in voters ==> Supports(c, i, v)
    ensures Later(cfg, R, c, c') && OnlyMoved(c, c', voters + {i}) && Slot(t, i) in c'.hist.elections
    ensures forall v :: v in voters ==> Voted(c.servers[v], c'.servers[v], t, i)
    ensures Leads(cfg, c', i, t, log) && NextIs(c', i, cfg.members - {i}, |log| + 1)
  {
    OwnPeersOnly(cfg, R, c, i);
    forall v | v in voters
      ensures Answer(c, i, v).1.granted && Voted(c.servers[v], c.servers[v].(node := Answer(c, i, v).0), t, i)
    {
      WillGrant(c, i, v);
    }
    c' := Win(cfg, R, c, i, voters);
  }

  /** A follower standing at `st` supports a candidate of term `t` with `log`. */
  predicate Yields(st: Standing, t: Term, log: Log) {
    (st.term < t || (st.term == t && st.vote == None)) && UpToDate(LastTerm(log), |log|, st.log)
  }

  /** `i` wins with the votes of two groups. */
  lemma Lead(cfg: Config, R: iset<Cluster>, c: Cluster, i: NodeId, t: Term, log: Log,
             g1: set<NodeId>, st1: Standing, g2: set<NodeId>, st2: Standing) returns (c': Cluster)
    requires Reached(cfg, R, c) && c.servers.Keys == cfg.members && Stands(c, i, t, log)
    requires g1 + g2 <= cfg.members - {i} && |g1 + g2| + 1 >= Quorum(cfg)
    requires All(c, g1, st1) && All(c, g2, st2) && Yields(st1, t, log) && Yields(st2, t, log)
    ensures Later(cfg, R, c, c') && OnlyMoved(c, c', g1 + g2 + {i}) && Slot(t, i) in c'.hist.elections
    ensures All(c', g1, Standing(t, Some(i), st1.log)) && All(c', g2, Standing(t, Some(i), st2.log))
    ensures forall v :: v in g1 + g2 && Blank(c.servers[v].node) ==> Blank(c'.servers[v].node)
    ensures Leads(cfg, c', i, t, log) && NextIs(c', i, cfg.members - {i}, |log| + 1)
  {
    forall v | v in g1 + g2 ensures Supports(c, i, v) {
    }
    c' := LeadBy(cfg, R, c, i, t, log, g1 + g2);
    forall v | v in g1 + g2 ensures Voted(c.servers[v], c'.servers[v], t, i) {
    }
  }

  /** Leader `i` would send each of `peers` its log from `next` on. */
  ghost predicate NextIs(c: Cluster, i: NodeId, peers: set<NodeId>, next: nat) {
    i in c.servers && forall q :: q in peers ==>
      q in c.servers[i].node.nextIndex && c.servers[i].node.nextIndex[q] == next
  }

  lemma Append(cfg: Config, R: iset<Cluster>, c: Cluster, i: NodeId, t: Term, log: Log, command: Bytes)
    returns (c': Cluster)
    requires Reached(cfg, R, c) && Leads(cfg, c, i, t, log)
    ensures Later(cfg, R, c, c') && OnlyMoved(c, c', {i}) && Leads(cfg, c', i, t, log + [Entry(t, command)])
    ensures c'.servers[i].node.nextIndex == c.servers[i].node.nextIndex && Created(c'.hist.acks, i, t)
  {
    c' := Act(cfg, R, c, ProposeCommand(i, command));
    assert Ack(i, Slot(t, i), c'.servers[i].node.log) in c'.hist.acks;
  }

  lemma NextKept(c: Cluster, c': Cluster, i: NodeId, peers: set<NodeId>, next: nat)
    requires i in c.servers && i in c'.servers && c'.servers[i].node.nextIndex == c.servers[i].node.nextIndex
    requires NextIs(c, i, peers, next)
    ensures NextIs(c', i, peers, next)
  {
  }

  /** `v` follows in the leader's term, and its log ends just where the leader's request begins. */
  ghost predicate Continues(cfg: Config, c: Cluster, i: NodeId, v: NodeId) {
    && SetUp(cfg, c, i) && v in cfg.members - {i}
    && var n, s := c.servers[i].node, c.servers[v];
       && s.thread.Idle? && s.node.role.Follower? && s.node.term == n.term
       && s.node.log <= n.log && n.nextIndex[v] == |s.node.log| + 1
  }

  lemma WillTakeOver(cfg: Config, c: Cluster, i: NodeId, v: NodeId)
    requires Continues(cfg, c, i, v)
    ensures WouldAccept(cfg, c, i, v)
    ensures var s, n := c.servers[v], c.servers[i].node;
      Follows(s.(node := Reaction(c, RoundMsg(cfg, c, i, v)).0), n.term, s.node.votedFor, n.log)
  {
    var m, held, log := RoundMsg(cfg, c, i, v), c.servers[v].node.log, c.servers[i].node.log;
    assert held + log[|held|..] == log;
    assert PrevMatches(held, m.req);
    TakesOver(c.servers[v].node, m.req);
  }

  /** A group in the leader's term, behind its log and known to be, takes the log over. */
  lemma GroupTakesOver(cfg: Config, c: Cluster, i: NodeId, t: Term, log: Log, g: set<NodeId>, st: Standing)
    requires Leads(cfg, c, i, t, log) && g <= cfg.members - {i}
    requires All(c, g, st) && st.term == t && st.log <= log && NextIs(c, i, g, |st.log| + 1)
    ensures forall v :: v in g ==> WouldAccept(cfg, c, i, v)
    ensures forall v :: v in g ==>
      Follows(c.servers[v].(node := Reaction(c, RoundMsg(cfg, c, i, v)).0), t, st.vote, log)
  {
    forall v | v in g
      ensures WouldAccept(cfg, c, i, v)
      ensures Follows(c.servers[v].(node := Reaction(c, RoundMsg(cfg, c, i, v)).0), t, st.vote, log)
    {
      assert Continues(cfg, c, i, v);
      WillTakeOver(cfg, c, i, v);
    }
  }

  lemma GroupFollows(cfg: Config, c: Cluster, c': Cluster, i: NodeId, t: Term, log: Log, g: set<NodeId>, st: Standing)
    requires Leads(cfg, c, i, t, log) && g <= cfg.members - {i} && c'.servers.Keys == c.servers.Keys
    requires All(c, g, st) && st.term == t && st.log <= log && NextIs(c, i, g, |st.log| + 1)
    requires forall v :: v in g ==> c'.servers[v] == c.servers[v].(node := Reaction(c, RoundMsg(cfg, c, i, v)).0)
    ensures All(c', g, Standing(t, st.vote, log))
  {
    GroupTakesOver(cfg, c, i, t, log, g, st);
  }

  /** Leader `i` reaches too few peers, and steps down without its vote. */
  lemma Quit(cfg: Config, R: iset<Cluster>, c: Cluster, i: NodeId, t: Term, log: Log,
             peers: set<NodeId>, st: Standing) returns (c': Cluster)
    requires Reached(cfg, R, c) && Leads(cfg, c, i, t, log) && !cfg.keepVote
    requires peers <= cfg.members - {i} && |peers| + 1 < Quorum(cfg)
    requires All(c, peers, st) && st.term == t && st.log <= log && NextIs(c, i, peers, |st.log| + 1)
    ensures Later(cfg, R, c, c') && OnlyMoved(c, c', peers + {i})
    ensures forall p :: p in cfg.members - {i} ==> RoundMsg(cfg, c, i, p) in c'.net.appends
    ensures All(c', peers, Standing(t, st.vote, log)) && Rests(c', i, t, None, log)
  {
    GroupTakesOver(cfg, c, i, t, log, peers, st);
    c' := QuitRound(cfg, R, c, i, peers);
  }

  /** It steps down without reaching anyone. */
  lemma QuitAlone(cfg: Config, R: iset<Cluster>, c: Cluster, i: NodeId, t: Term, log: Log) returns (c': Cluster)
    requires Reached(cfg, R, c) && Leads(cfg, c, i, t, log) && !cfg.keepVote && Quorum(cfg) >= 2
    ensures Later(cfg, R, c, c') && OnlyMoved(c, c', {i}) && Rests(c', i, t, None, log)
    ensures forall p :: p in cfg.members - {i} ==> RoundMsg(cfg, c, i, p) in c'.net.appends
  {
    assert {} + {i} == {i};
    c' := Quit(cfg, R, c, i, t, log, {}, Standing(t, None, log));
  }

  /** A leader that has committed nothing makes nobody commit. */
  lemma StaysBlank(cfg: Config, c: Cluster, i: NodeId, v: NodeId)
    requires i in c.servers && v in c.servers && Blank(c.servers[i].node)
    ensures Blank(c.servers[v].node) ==> Blank(Reaction(c, RoundMsg(cfg, c, i, v)).0)
  {
  }

  lemma CommitAll(cfg: Config, R: iset<Cluster>, c: Cluster, i: NodeId, t: Term, log: Log, peers: set<NodeId>)
    returns (c': Cluster)
    requires Reached(cfg, R, c) && Leads(cfg, c, i, t, log) && log != [] && LastTerm(log) == t
    requires peers <= cfg.members - {i} && |peers| + 1 >= Quorum(cfg)
    requires forall v :: v in peers ==> WouldAccept(cfg, c, i, v)
    ensures Later(cfg, R, c, c') && OnlyMoved(c, c', peers + {i})
    ensures forall v :: v in peers ==>
      c'.servers[v] == c.servers[v].(node := Reaction(c, RoundMsg(cfg, c, i, v)).0)
    ensures c'.servers[i].node.applied == Results(log, 0, |log|)
    ensures Committed(c.servers[i].node, c'.servers[i].node, peers) && c'.servers[i].thread.Idle?
    ensures forall v :: v in peers && Blank(c.servers[v].node) ==> Blank(c'.servers[v].node)
  {
    forall v | v in peers && Blank(c.servers[v].node) ensures Blank(Reaction(c, RoundMsg(cfg, c, i, v)).0) {
      StaysBlank(cfg, c, i, v);
    }
    c' := CommitRound(cfg, R, c, i, peers);
  }

  /** Leader `i` commits and applies all of its log, with the help of two groups. */
  lemma Settle(cfg: Config, R: iset<Cluster>, c: Cluster, i: NodeId, t: Term, log: Log,
               g1: set<NodeId>, st1: Standing, g2: set<NodeId>, st2: Standing) returns (c': Cluster)
    requires Reached(cfg, R, c) && Leads(cfg, c, i, t, log) && log != [] && LastTerm(log) == t
    requires g1 + g2 <= cfg.members - {i} && |g1 + g2| + 1 >= Quorum(cfg)
    requires All(c, g1, st1) && st1.term == t && st1.log <= log && NextIs(c, i, g1, |st1.log| + 1)
    requires All(c, g2, st2) && st2.term == t && st2.log <= log && NextIs(c, i, g2, |st2.log| + 1)
    ensures Later(cfg, R, c, c') && OnlyMoved(c, c', g1 + g2 + {i})
    ensures All(c', g1, Standing(t, st1.vote, log)) && All(c', g2, Standing(t, st2.vote, log))
    ensures c'.servers[i].node.applied == Results(log, 0, |log|)
    ensures Committed(c.servers[i].node, c'.servers[i].node, g1 + g2) && c'.servers[i].thread.Idle?
    ensures forall v :: v in g1 + g2 && Blank(c.servers[v].node) ==> Blank(c'.servers[v].node)
  {
    forall v | v in g1 + g2 ensures WouldAccept(cfg, c, i, v) {
      if v in g1 {
        GroupTakesOver(cfg, c, i, t, log, g1, st1);
      } else {
        GroupTakesOver(cfg, c, i, t, log, g2, st2);
      }
    }
    c' := CommitAll(cfg, R, c, i, t, log, g1 + g2);
    GroupFollows(cfg, c, c', i, t, log, g1, st1);
    GroupFollows(cfg, c, c', i, t, log, g2, st2);
  }

  ghost predicate Rests(c: Cluster, i: NodeId, t: Term, vote: Option<NodeId>, log: Log) {
    i in c.servers && Follows(c.servers[i], t, vote, log) && Blank(c.servers[i].node)
  }

  lemma RestsKept(c: Cluster, c': Cluster, moved: set<NodeId>, i: NodeId, t: Term, vote: Option<NodeId>, log: Log)
    requires OnlyMoved(c, c', moved) && Rests(c, i, t, vote, log) && i !in moved
    ensures Rests(c', i, t, vote, log)
  {
  }

  lemma RestsAlone(c: Cluster, i: NodeId, st: Standing)
    requires Rests(c, i, st.term, st.vote, st.log)
    ensures All(c, {i}, st)
  {
  }

  lemma AloneRests(c: Cluster, i: NodeId, st: Standing)
    requires All(c, {i}, st) && (i in c.servers ==> Blank(c.servers[i].node))
    ensures Rests(c, i, st.term, st.vote, st.log)
  {
    assert i in {i};
  }

  lemma StandsKept(c: Cluster, c': Cluster, moved: set<NodeId>, i: NodeId, t: Term, log: Log)
    requires OnlyMoved(c, c', moved) && Stands(c, i, t, log) && i !in moved
    ensures Stands(c', i, t, log)
  {
  }

  /** The leader learns that `p` lacks its log. */
  lemma GoBack(cfg: Config, R: iset<Cluster>, c: Cluster, i: NodeId, t: Term, log: Log, p: NodeId, st: Standing)
    returns (c': Cluster)
    requires Reached(cfg, R, c) && Leads(cfg, c, i, t, log) && Quorum(cfg) >= 2
    requires p in cfg.members - {i} && All(c, {p}, st) && st.term == t && st.log == [] && NextIs(c, i, {p}, 2)
    ensures Later(cfg, R, c, c') && OnlyMoved(c, c', {i, p}) && Leads(cfg, c', i, t, log)
    ensures All(c', {p}, st) && (Blank(c.servers[p].node) ==> Blank(c'.servers[p].node))
    ensures c'.servers[i].node.nextIndex == c.servers[i].node.nextIndex[p := 1]
  {
    assert p in {p};
    StaysBlank(cfg, c, i, p);
    NothingToFill(cfg, c.servers[i].node, i);
    assert RoundMsg(cfg, c, i, p).req.prevIndex == 1;
    c' := BackRound(cfg, R, c, i, p);
  }

  lemma LeadsKept(cfg: Config, c: Cluster, c': Cluster, moved: set<NodeId>, i: NodeId, t: Term, log: Log, next: nat)
    requires OnlyMoved(c, c', moved) && i !in moved
    requires Leads(cfg, c, i, t, log) && NextIs(c, i, cfg.members - {i}, next)
    ensures Leads(cfg, c', i, t, log) && NextIs(c', i, cfg.members - {i}, next)
  {
  }
}
