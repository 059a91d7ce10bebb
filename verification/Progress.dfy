/** No run ends in a dead end: whatever has happened, messages lost, terms adopted late and votes
    forgotten included, the cluster can go on to elect a leader, which repairs the logs of its
    peers and commits and applies a new command.

    This is what the conditions for granting, winning, accepting and committing must not be too
    strict for. */
module Progress {
  import opened RaftTypes
  import opened RaftSteps
  import opened Cluster
  import opened ElectionSafety
  import opened LogSafety
  import opened AnyRun
  import opened Outcomes
  import opened RunBuilding

  /** Node `i` alone has moved, and kept its log. */
  ghost predicate Moves(cfg: Config, R: iset<Cluster>, c: Cluster, c': Cluster, i: NodeId) {
    && Later(cfg, R, c, c') && OnlyMoved(c, c', {i})
    && i in c.servers && c'.servers[i].node.log == c.servers[i].node.log
  }

  ghost predicate Ready(cfg: Config, R: iset<Cluster>, c: Cluster, i: NodeId) {
    Reached(cfg, R, c) && Closed(cfg, R) && c.servers.Keys == cfg.members && i in cfg.members
  }

  // ----- coming to rest -----

  lemma LeaveCampaign(cfg: Config, R: iset<Cluster>, c: Cluster, i: NodeId) returns (c': Cluster)
    requires Ready(cfg, R, c, i) && c.servers[i].thread.Campaign?
    ensures Moves(cfg, R, c, c', i) && (c'.servers[i].thread.Idle? || c'.servers[i].thread.Won?)
  {
    if c.servers[i].thread.newer.Some? {
      c' := AdoptNow(cfg, R, c, i);
    } else {
      c' := Act(cfg, R, c, EndElection(i));
    }
  }

  lemma LeaveRound(cfg: Config, R: iset<Cluster>, c: Cluster, i: NodeId) returns (c': Cluster)
    requires Ready(cfg, R, c, i) && c.servers[i].thread.Round?
    ensures Moves(cfg, R, c, c', i) && c'.servers[i].thread.Idle?
    ensures Quorum(cfg) >= 2 ==> !c'.servers[i].node.role.Leader?
  {
    c' := CloseRound(cfg, R, c, i, [], true);
    if c.servers[i].node.role.Leader? {
      assert ResultsOf([]) == [];
      assert Confirming([], c.servers[i].node.term) == {};
      RoundOutcome(c.servers[i].node, [], Quorum(cfg), true, cfg.keepVote);
    }
  }

  lemma ComeToIdle(cfg: Config, R: iset<Cluster>, c: Cluster, i: NodeId) returns (c': Cluster)
    requires Ready(cfg, R, c, i)
    ensures Moves(cfg, R, c, c', i) && c'.servers[i].thread.Idle?
  {
    c' := c;
    if c'.servers[i].thread.Campaign? {
      c' := LeaveCampaign(cfg, R, c', i);
    }
    if c'.servers[i].thread.Won? {
      c' := Act(cfg, R, c', SetIndices(i));
    } else if c'.servers[i].thread.Round? {
      c' := LeaveRound(cfg, R, c', i);
    }
  }

  ghost predicate AtRest(c: Cluster, i: NodeId) {
    i in c.servers && c.servers[i].thread.Idle? && !c.servers[i].node.role.Leader?
  }

  lemma ComeToRest(cfg: Config, R: iset<Cluster>, c: Cluster, i: NodeId) returns (c': Cluster)
    requires Ready(cfg, R, c, i) && Quorum(cfg) >= 2
    ensures Moves(cfg, R, c, c', i) && AtRest(c', i)
  {
    c' := ComeToIdle(cfg, R, c, i);
    if c'.servers[i].node.role.Leader? {
      var c1 := BeginRound(cfg, R, c', i);
      c' := LeaveRound(cfg, R, c1, i);
    }
  }

  // ----- an election -----

  /** `i` stands, and nobody has answered yet. */
  ghost predicate Candidacy(c: Cluster, i: NodeId) {
    Campaigning(c, i) && c.servers[i].thread.votes == map[]
  }

  /** Standing again and again takes a node beyond any term. */
  lemma {:induction false} StandAbove(cfg: Config, R: iset<Cluster>, c: Cluster, i: NodeId, term: Term)
    returns (c': Cluster)
    requires Ready(cfg, R, c, i) && Quorum(cfg) >= 2 && AtRest(c, i)
    ensures Moves(cfg, R, c, c', i) && Candidacy(c', i) && c'.servers[i].node.term > term
    decreases if c.servers[i].node.term <= term then term - c.servers[i].node.term + 1 else 0
  {
    c' := Act(cfg, R, c, StartElection(i));
    if c'.servers[i].node.term <= term {
      assert |c'.servers[i].thread.votes| == 0;
      var c1 := Act(cfg, R, c', EndElection(i));
      c' := StandAbove(cfg, R, c1, i, term);
    }
  }

  lemma {:induction false} HighestTerm(c: Cluster, nodes: set<NodeId>) returns (term: Term)
    requires nodes <= c.servers.Keys
    ensures forall v :: v in nodes ==> c.servers[v].node.term <= term
    decreases nodes
  {
    if nodes == {} {
      term := 0;
    } else {
      var x :| x in nodes;
      term := HighestTerm(c, nodes - {x});
      term := Max(term, c.servers[x].node.term);
    }
  }

  /** Leader `i`, followed by all in its term, of none of whom it knows what they hold. */
  ghost predicate Office(cfg: Config, R: iset<Cluster>, c: Cluster, i: NodeId) {
    && Reached(cfg, R, c) && c.servers.Keys == cfg.members && Leading(c, i)
    && c.servers[i].node.nextIndex.Keys == cfg.members - {i} && IndicesOk(c.servers[i].node)
    && (forall p :: p in c.servers[i].node.matchIndex ==> c.servers[i].node.matchIndex[p] == 0)
    && (forall v :: v in cfg.members - {i} ==> c.servers[v].node.term == c.servers[i].node.term)
  }

  lemma AllVote(cfg: Config, R: iset<Cluster>, c: Cluster, i: NodeId) returns (c': Cluster)
    requires Ready(cfg, R, c, i) && Candidacy(c, i)
    requires forall v :: v in cfg.members - {i} ==>
      && c.servers[v].node.term < c.servers[i].node.term
      && UpToDate(LastTerm(c.servers[i].node.log), |c.servers[i].node.log|, c.servers[v].node.log)
    ensures Office(cfg, R, c', i)
  {
    var t, peers := c.servers[i].node.term, cfg.members - {i};
    forall v | v in peers ensures Answer(c, i, v).1.granted && Answer(c, i, v).0.term == t {
      WouldVote(c, i, v);
    }
    assert |peers| == |cfg.members| - 1;
    c' := Win(cfg, R, c, i, peers);
    OwnPeersOnly(cfg, R, c, i);
    InOffice(cfg, R, c, c', i);
  }

  lemma WouldVote(c: Cluster, i: NodeId, v: NodeId)
    requires i in c.servers && v in c.servers && c.servers[v].node.term < c.servers[i].node.term
    requires UpToDate(LastTerm(c.servers[i].node.log), |c.servers[i].node.log|, c.servers[v].node.log)
    ensures Answer(c, i, v).1.granted && Answer(c, i, v).0.term == c.servers[i].node.term
  {
    VoteOutcome(c.servers[v].node, BuildVoteRequest(c.servers[i].node, i));
  }

  lemma InOffice(cfg: Config, R: iset<Cluster>, c: Cluster, c': Cluster, i: NodeId)
    requires Later(cfg, R, c, c') && c.servers.Keys == cfg.members && i in cfg.members
    requires c'.servers[i] == Server(NewLeader(cfg, c.servers[i].node, i), Idle)
    requires c.servers[i].node.nextIndex.Keys <= cfg.members - {i}
    requires c.servers[i].node.matchIndex.Keys <= cfg.members - {i}
    requires forall v :: v in cfg.members - {i} ==>
      c'.servers[v] == c.servers[v].(node := Answer(c, i, v).0) && Answer(c, i, v).0.term == c.servers[i].node.term
    ensures Office(cfg, R, c', i)
  {
    FreshIndices(cfg, c.servers[i].node, i);
  }

  lemma FreshIndices(cfg: Config, n: NodeState, i: NodeId)
    requires n.nextIndex.Keys <= cfg.members - {i} && n.matchIndex.Keys <= cfg.members - {i}
    ensures var n' := NewLeader(cfg, n, i);
      && n'.nextIndex.Keys == cfg.members - {i} && IndicesOk(n')
      && forall p :: p in n'.matchIndex ==> n'.matchIndex[p] == 0
  {
  }

  lemma Elect(cfg: Config, R: iset<Cluster>, c: Cluster) returns (c': Cluster, i: NodeId)
    requires Reached(cfg, R, c) && Closed(cfg, R) && c.servers.Keys == cfg.members && Quorum(cfg) >= 2
    ensures i in cfg.members && Office(cfg, R, c', i)
  {
    var logs := map v | v in c.servers :: c.servers[v].node.log;
    assert cfg.members != {};
    i := BestCandidate(cfg.members, logs);
    var c1 := ComeToRest(cfg, R, c, i);
    var term := HighestTerm(c1, cfg.members);
    var c2 := StandAbove(cfg, R, c1, i, term);
    forall v | v in cfg.members - {i}
      ensures c2.servers[v].node.term <= term && c2.servers[v].node.log == logs[v]
    {
      assert c2.servers[v] == c1.servers[v] == c.servers[v];
    }
    c' := AllVote(cfg, R, c2, i);
  }

  /** A node without peers elects itself. */
  lemma ElectSelf(cfg: Config, R: iset<Cluster>, c: Cluster, i: NodeId) returns (c': Cluster)
    requires Ready(cfg, R, c, i) && cfg.members == {i}
    ensures Office(cfg, R, c', i)
  {
    c' := ComeToIdle(cfg, R, c, i);
    if !c'.servers[i].node.role.Leader? {
      var c1 := Act(cfg, R, c', StartElection(i));
      c' := TakeOffice(cfg, R, c1, i);
    }
    OwnPeersOnly(cfg, R, c', i);
  }

  lemma ElectAny(cfg: Config, R: iset<Cluster>, c: Cluster) returns (c': Cluster, i: NodeId)
    requires Reached(cfg, R, c) && Closed(cfg, R) && c.servers.Keys == cfg.members && cfg.members != {}
    ensures i in cfg.members && Office(cfg, R, c', i)
  {
    if Quorum(cfg) >= 2 {
      c', i := Elect(cfg, R, c);
    } else {
      i :| i in cfg.members;
      SubsetSize({i}, cfg.members);
      c' := ElectSelf(cfg, R, c, i);
    }
  }

  // ----- commands -----

  /** The leader goes on as before, as far as replication is concerned. */
  ghost predicate Continued(n: NodeState, n': NodeState) {
    n'.term == n.term && n'.commitIndex == n.commitIndex &&
    Max(n'.lastApplied, n'.commitIndex) == Max(n.lastApplied, n.commitIndex)
  }

  lemma {:induction false} ProposeMany(cfg: Config, R: iset<Cluster>, c: Cluster, i: NodeId, command: Bytes, k: nat)
    returns (c': Cluster)
    requires Office(cfg, R, c, i) && i in cfg.members
    ensures Office(cfg, R, c', i) && Continued(c.servers[i].node, c'.servers[i].node)
    ensures |c'.servers[i].node.log| == |c.servers[i].node.log| + k
    ensures k > 0 ==> EndsIn(c'.servers[i].node, command)
    decreases k
  {
    c' := c;
    if k > 0 {
      var c1 := ProposeMany(cfg, R, c, i, command, k - 1);
      c' := Act(cfg, R, c1, ProposeCommand(i, command));
    }
  }

  ghost predicate EndsIn(n: NodeState, command: Bytes) {
    n.log != [] && n.log[|n.log| - 1] == Entry(n.term, command)
  }

  // ----- repairing the logs of peers -----

  /** As things stand, `v` accepts the request that the leader would send it now. */
  ghost predicate Takes(cfg: Config, c: Cluster, i: NodeId, v: NodeId) {
    i in c.servers && v in c.servers && Reaction(c, RoundMsg(cfg, c, i, v)).1.success
  }

  lemma OfficeRequest(cfg: Config, R: iset<Cluster>, c: Cluster, i: NodeId, v: NodeId)
    requires Office(cfg, R, c, i) && v in cfg.members - {i}
    ensures FillNextIndex(c.servers[i].node, cfg.members - {i}) == c.servers[i].node
    ensures var n, m := c.servers[i].node, RoundMsg(cfg, c, i, v);
      && m.req.prevIndex == n.nextIndex[v] - 1 && m.req.prevIndex + |m.req.entries| == |n.log|
      && Reaction(c, m).1.term == Reaction(c, m).0.term == n.term
      && (!Takes(cfg, c, i, v) ==> n.nextIndex[v] > 1 && Reaction(c, m).0.log == c.servers[v].node.log)
  {
    NothingToFill(cfg, c.servers[i].node, i);
    var k := AppendOutcome(c.servers[v].node, RoundMsg(cfg, c, i, v).req);
  }

  /** What a refusal leaves at a leader whom nobody matches. */
  lemma RefusalNoted(cfg: Config, n: NodeState, r: RpcResult)
    requires n.role.Leader? && Quorum(cfg) >= 2 && r.reply == Some(AppendReply(n.term, false))
    requires r.peer in n.nextIndex && n.nextIndex[r.peer] > 1
    requires forall p :: p in n.matchIndex ==> n.matchIndex[p] == 0
    ensures var n' := FinishRound(n, [r], Quorum(cfg), false, cfg.keepVote);
      && n'.role.Leader? && n'.log == n.log && Continued(n, n')
      && n'.nextIndex == n.nextIndex[r.peer := n.nextIndex[r.peer] - 1] && n'.matchIndex == n.matchIndex
  {
    var n' := FinishRound(n, [r], Quorum(cfg), false, cfg.keepVote);
    RoundOutcome(n, [r], Quorum(cfg), false, cfg.keepVote);
    assert NotedAt(n, n', [r][0]);
    forall p ensures MatchKept(n, n', p) && (p != r.peer ==> IndicesKept(n, n', p)) {
      assert p != r.peer ==> Silent([r], p);
    }
    SameIndices(n, n', r.peer);
    forall j: nat | j > 0 ensures Storing(n', j) == {} {
    }
  }

  lemma SameIndices(n: NodeState, n': NodeState, q: NodeId)
    requires forall p :: MatchKept(n, n', p) && (p != q ==> IndicesKept(n, n', p))
    requires q in n.nextIndex && q in n'.nextIndex
    ensures n'.matchIndex == n.matchIndex && n'.nextIndex == n.nextIndex[q := n'.nextIndex[q]]
  {
    forall p ensures p in n'.matchIndex <==> p in n.matchIndex {
      assert MatchKept(n, n', p);
    }
    forall p | p != q ensures p in n'.nextIndex <==> p in n.nextIndex {
      assert IndicesKept(n, n', p);
    }
    forall p | p in n.matchIndex ensures n'.matchIndex[p] == n.matchIndex[p] {
      assert MatchKept(n, n', p);
    }
    forall p | p in n.nextIndex && p != q ensures n'.nextIndex[p] == n.nextIndex[p] {
      assert IndicesKept(n, n', p);
    }
  }

  lemma StepBack(cfg: Config, R: iset<Cluster>, c: Cluster, i: NodeId, v: NodeId) returns (c': Cluster)
    requires Office(cfg, R, c, i) && i in cfg.members && v in cfg.members - {i} && Quorum(cfg) >= 2
    requires !Takes(cfg, c, i, v)
    ensures Office(cfg, R, c', i) && OnlyMoved(c, c', {i, v}) && SameFor(c, c', i, v)
    ensures c'.servers[i].node.nextIndex[v] < c.servers[i].node.nextIndex[v]
  {
    OfficeRequest(cfg, R, c, i, v);
    c' := RefusedRound(cfg, R, c, i, v);
    RefusalNoted(cfg, c.servers[i].node, RefusalOf(cfg, c, i, v));
  }

  /** What the leader notes of the answer of `v`. */
  ghost function RefusalOf(cfg: Config, c: Cluster, i: NodeId, v: NodeId): RpcResult
    requires i in c.servers && v in c.servers
  {
    ResultOf(AppendReplyMsg(RoundMsg(cfg, c, i, v), Reaction(c, RoundMsg(cfg, c, i, v)).1))
  }

  lemma RefusedRound(cfg: Config, R: iset<Cluster>, c: Cluster, i: NodeId, v: NodeId) returns (c': Cluster)
    requires Office(cfg, R, c, i) && i in cfg.members && v in cfg.members - {i}
    ensures Later(cfg, R, c, c') && OnlyMoved(c, c', {i, v})
    ensures c'.servers[v] == c.servers[v].(node := Reaction(c, RoundMsg(cfg, c, i, v)).0)
    ensures c'.servers[i] ==
            Server(FinishRound(c.servers[i].node, [RefusalOf(cfg, c, i, v)], Quorum(cfg), false, cfg.keepVote), Idle)
  {
    var rs;
    NothingToFill(cfg, c.servers[i].node, i);
    c', rs := DoRound(cfg, R, c, i, {v}, false);
    assert v in {v} && rs[0].msg.to in {v};
    assert ResultsOf(rs) == [ResultOf(rs[0])];
  }

  /** Leader `i` goes on as before with all peers except `v`. */
  ghost predicate SameFor(c: Cluster, c': Cluster, i: NodeId, v: NodeId) {
    && i in c.servers && i in c'.servers
    && var n, n' := c.servers[i].node, c'.servers[i].node;
       && Continued(n, n') && n'.log == n.log && n'.nextIndex.Keys == n.nextIndex.Keys
       && forall w :: w in n.nextIndex && w != v ==> n'.nextIndex[w] == n.nextIndex[w]
  }

  lemma {:induction false} RepairOne(cfg: Config, R: iset<Cluster>, c: Cluster, i: NodeId, v: NodeId)
    returns (c': Cluster)
    requires Office(cfg, R, c, i) && i in cfg.members && v in cfg.members - {i} && Quorum(cfg) >= 2
    ensures Office(cfg, R, c', i) && OnlyMoved(c, c', {i, v}) && SameFor(c, c', i, v) && Takes(cfg, c', i, v)
    decreases c.servers[i].node.nextIndex[v]
  {
    if Takes(cfg, c, i, v) {
      c' := c;
    } else {
      var c1 := StepBack(cfg, R, c, i, v);
      c' := RepairOne(cfg, R, c1, i, v);
    }
  }

  lemma StillTakes(cfg: Config, R: iset<Cluster>, c: Cluster, c': Cluster, i: NodeId, v: NodeId, w: NodeId)
    requires Office(cfg, R, c, i) && Office(cfg, R, c', i) && OnlyMoved(c, c', {i, v}) && SameFor(c, c', i, v)
    requires w in cfg.members - {i} && w != v && Takes(cfg, c, i, w)
    ensures Takes(cfg, c', i, w)
  {
    OfficeRequest(cfg, R, c, i, w);
    OfficeRequest(cfg, R, c', i, w);
    assert c'.servers[w] == c.servers[w];
    assert RoundMsg(cfg, c', i, w) == RoundMsg(cfg, c, i, w);
  }

  lemma {:induction false} RepairAll(cfg: Config, R: iset<Cluster>, c: Cluster, i: NodeId, vs: set<NodeId>)
    returns (c': Cluster)
    requires Office(cfg, R, c, i) && i in cfg.members && vs <= cfg.members - {i}
    ensures Office(cfg, R, c', i) && forall v :: v in vs ==> Takes(cfg, c', i, v)
    ensures Continued(c.servers[i].node, c'.servers[i].node) && c'.servers[i].node.log == c.servers[i].node.log
    decreases vs
  {
    if vs == {} {
      c' := c;
    } else {
      var v :| v in vs;
      TwoMembers(cfg.members, i, v);
      var c1 := RepairAll(cfg, R, c, i, vs - {v});
      c' := RepairOne(cfg, R, c1, i, v);
      forall w | w in vs ensures Takes(cfg, c', i, w) {
        if w != v {
          StillTakes(cfg, R, c1, c', i, v, w);
        }
      }
    }
  }

  // ----- committing -----

  /** What acceptance by all peers leaves at a leader whose log ends in its term. */
  lemma AllAccept(cfg: Config, n: NodeState, i: NodeId, rs: seq<RpcResult>, command: Bytes)
    requires n.role.Leader? && EndsIn(n, command) && Max(n.lastApplied, n.commitIndex) < |n.log|
    requires i in cfg.members && PeersIn(rs) == cfg.members - {i} && Distinct(rs)
    requires forall k :: 0 <= k < |rs| ==>
      rs[k].reply == Some(AppendReply(n.term, true)) && rs[k].prevIndex + rs[k].sent == |n.log|
    ensures AppliedLast(FinishRound(n, rs, Quorum(cfg), false, cfg.keepVote), command)
  {
    var n' := FinishRound(n, rs, Quorum(cfg), false, cfg.keepVote);
    RoundOutcome(n, rs, Quorum(cfg), false, cfg.keepVote);
    forall p | p in cfg.members - {i} ensures p in Storing(n', |n.log|) {
      var k :| 0 <= k < |rs| && rs[k].peer == p;
      assert NotedAt(n, n', rs[k]);
    }
    SubsetSize(cfg.members - {i}, Storing(n', |n.log|));
    assert |cfg.members - {i}| == |cfg.members| - 1;
    assert OnMajority(n', |n.log|, Quorum(cfg));
    assert n'.commitIndex == |n.log|;
  }

  /** The node leads, has committed and applied all of its log, and the command last. */
  ghost predicate AppliedLast(n: NodeState, command: Bytes) {
    && n.role.Leader? && EndsIn(n, command) && n.commitIndex == n.lastApplied == |n.log|
    && n.applied != [] && n.applied[|n.applied| - 1] == ApplyResult(true, command, |n.log|)
  }

  lemma CommitAtLast(cfg: Config, R: iset<Cluster>, c: Cluster, i: NodeId, command: Bytes) returns (c': Cluster)
    requires Office(cfg, R, c, i) && i in cfg.members && EndsIn(c.servers[i].node, command)
    requires Max(c.servers[i].node.lastApplied, c.servers[i].node.commitIndex) < |c.servers[i].node.log|
    requires forall v :: v in cfg.members - {i} ==> Takes(cfg, c, i, v)
    ensures c' in R && i in c'.servers && AppliedLast(c'.servers[i].node, command)
  {
    var n, peers := c.servers[i].node, cfg.members - {i};
    var replies;
    c', replies := DoRound(cfg, R, c, i, peers, false);
    var rs := ResultsOf(replies);
    NothingToFill(cfg, n, i);
    forall k | 0 <= k < |rs|
      ensures rs[k].reply == Some(AppendReply(n.term, true)) && rs[k].prevIndex + rs[k].sent == |n.log|
      ensures rs[k].peer in peers
    {
      OfficeRequest(cfg, R, c, i, replies[k].msg.to);
      assert Takes(cfg, c, i, replies[k].msg.to);
    }
    DistinctPeers(rs);
    SameSize(PeersIn(rs), peers);
    AllAccept(cfg, n, i, rs, command);
  }

  /** After every run, and for every command, the run can go on so that a leader commits and
      applies the command. */
  lemma CanAlwaysCommit(cfg: Config, run: seq<Action>, command: Bytes) returns (more: seq<Action>, i: NodeId)
    requires cfg.members != {}
    ensures i in After(cfg, run + more).servers && AppliedLast(After(cfg, run + more).servers[i].node, command)
  {
    var c := After(cfg, run);
    var R := RunsFrom(cfg, run);
    Present(cfg, run);
    c, i := ElectAny(cfg, R, c);
    var n := c.servers[i].node;
    c := ProposeMany(cfg, R, c, i, command, Max(n.lastApplied, n.commitIndex) + 1);
    c := RepairAll(cfg, R, c, i, cfg.members - {i});
    c := CommitAtLast(cfg, R, c, i, command);
    more :| After(cfg, run + more) == c;
  }
}
