/** What adopting terms late costs, exactly.

    A candidate compares a reply's term in one critical section and adopts it in another
    (src/raft.cpp:116-128). If the node reaches that term and votes in it between the two, adopting
    the term makes it forget the vote; if it goes beyond, its term falls. This module constructs
    runs in which that breaks the guarantees, for every cluster in which it can, whether or not
    deposed leaders keep their votes. */
module LateAdoption {
  import opened RaftTypes
  import opened RaftSteps
  import opened Cluster
  import opened LogMerge
  import opened ElectionSafety
  import opened AnyRun
  import opened RaftTheorems
  import opened RunBuilding
  import opened Departures
  import opened SmallClusters
  import opened TwoVoters

  // ----- clusters within reach of any run -----

  ghost predicate Reachable(cfg: Config, c: Cluster) {
    exists run :: After(cfg, run) == c
  }

  lemma AllRuns(cfg: Config) returns (R: iset<Cluster>)
    ensures Reached(cfg, R, Init(cfg)) && Closed(cfg, R) && forall c :: c in R ==> Reachable(cfg, c)
  {
    R := RunsFrom(cfg, []);
    assert After(cfg, []) == Init(cfg);
    forall c | c in R ensures Reachable(cfg, c) {
      var more :| After(cfg, [] + more) == c;
      assert [] + more == more;
    }
  }

  // ----- seeing a newer term, and adopting it late -----

  /** Candidate `w` has seen the newer term `t`. */
  ghost predicate HasSeen(c: Cluster, w: NodeId, t: Term) {
    w in c.servers && c.servers[w].thread.Campaign? && c.servers[w].thread.newer == Some(t)
  }

  /** `w` asks `x`, which is ahead of it, and sees its term. */
  lemma See(cfg: Config, R: iset<Cluster>, c: Cluster, w: NodeId, x: NodeId) returns (c': Cluster)
    requires Reached(cfg, R, c) && c.servers.Keys == cfg.members && Campaigning(c, w) && x in cfg.members && x != w
    requires c.servers[w].thread.votes == map[] && c.servers[w].node.term < c.servers[x].node.term
    ensures Later(cfg, R, c, c') && OnlyMoved(c, c', {w}) && HasSeen(c', w, c.servers[x].node.term)
    ensures c'.servers[w].node == c.servers[w].node
  {
    var req := BuildVoteRequest(c.servers[w].node, w);
    var m := VoteMsg(x, req, c.servers[w].thread.since);
    var c1 := Act(cfg, R, c, AskVote(w, x, req));
    var c2 := Act(cfg, R, c1, HandleVote(m));
    var r := VoteReplyMsg(m, VoteReply(c.servers[x].node.term, false), c.servers[x].node.log);
    assert r in c2.net.voteReplies;
    c' := Act(cfg, R, c2, CountVote(w, r));
  }

  lemma AdoptLate(cfg: Config, R: iset<Cluster>, c: Cluster, w: NodeId, t: Term) returns (c': Cluster)
    requires Reached(cfg, R, c) && Closed(cfg, R) && w in cfg.members && HasSeen(c, w, t)
    ensures Later(cfg, R, c, c') && OnlyMoved(c, c', {w})
    ensures c'.servers[w] == Server(AdoptTerm(c.servers[w].node, t), Idle)
  {
    c' := AdoptNow(cfg, R, c, w);
  }

  // ----- three nodes or more -----

  const A := Entry(2, [1])
  const B := Entry(2, [2])

  /** Two rivals and just enough voters for either. */
  datatype Cast3 = Cast3(a: NodeId, b: NodeId, voters: set<NodeId>)

  ghost predicate Cast3Ok(cfg: Config, k: Cast3) {
    k.a in cfg.members && k.b in cfg.members && k.a != k.b && k.voters <= cfg.members - {k.a, k.b}
    && |k.voters| + 1 == Quorum(cfg) >= 2
  }

  lemma Casting3(cfg: Config) returns (k: Cast3)
    requires |cfg.members| >= 3
    ensures Cast3Ok(cfg, k)
  {
    var m := cfg.members;
    var a :| a in m;
    assert |m - {a}| == |m| - 1;
    var b :| b in m - {a};
    assert |m - {a} - {b}| == |m| - 2;
    var voters := PartOf(m - {a} - {b}, Quorum(cfg) - 1);
    k := Cast3(a, b, voters);
  }

  /** Each of `ws` is a candidate of term 1 that nobody has answered. */
  ghost predicate AllStand(c: Cluster, ws: set<NodeId>) {
    forall w :: w in ws ==> Stands(c, w, 1, [])
  }

  lemma {:induction false} EachBegins(cfg: Config, R: iset<Cluster>, c: Cluster, ws: set<NodeId>) returns (c': Cluster)
    requires Reached(cfg, R, c) && c.servers.Keys == cfg.members && ws <= cfg.members
    requires forall w :: w in ws ==> Rests(c, w, 0, None, [])
    ensures Later(cfg, R, c, c') && OnlyMoved(c, c', ws) && AllStand(c', ws)
    decreases ws
  {
    if ws == {} {
      c' := c;
    } else {
      var w :| w in ws;
      var c1 := Begin(cfg, R, c, w, 0, None, []);
      c' := EachBegins(cfg, R, c1, ws - {w});
      assert c'.servers[w] == c1.servers[w];
    }
  }

  ghost predicate AllHaveSeen(c: Cluster, ws: set<NodeId>) {
    forall w :: w in ws ==> HasSeen(c, w, 2) && Votable(c.servers[w].node)
  }

  /** A node that knows and has done nothing yet but stand in term 1. */
  ghost predicate Votable(n: NodeState) {
    n.term == 1 && n.log == [] && Blank(n)
  }

  lemma {:induction false} EachSees(cfg: Config, R: iset<Cluster>, c: Cluster, ws: set<NodeId>, x: NodeId)
    returns (c': Cluster)
    requires Reached(cfg, R, c) && c.servers.Keys == cfg.members && ws <= cfg.members - {x} && x in cfg.members
    requires AllStand(c, ws) && c.servers[x].node.term == 2
    ensures Later(cfg, R, c, c') && OnlyMoved(c, c', ws) && AllHaveSeen(c', ws)
    decreases ws
  {
    if ws == {} {
      c' := c;
    } else {
      var w :| w in ws;
      var c1 := See(cfg, R, c, w, x);
      forall v | v in ws - {w} ensures Stands(c1, v, 1, []) {
        assert c1.servers[v] == c.servers[v];
      }
      c' := EachSees(cfg, R, c1, ws - {w}, x);
      assert c'.servers[w] == c1.servers[w];
    }
  }

  /** Each of `ws` has voted for `a` in term 2, and is still to adopt that term. */
  ghost predicate AllVoted(c: Cluster, ws: set<NodeId>, a: NodeId) {
    forall w :: w in ws ==> HasSeen(c, w, 2) && VotedFor(c.servers[w].node, a)
  }

  ghost predicate VotedFor(n: NodeState, a: NodeId) {
    n.log == [] && Blank(n) && n.term == 2 && n.votedFor == Some(a)
  }

  lemma {:induction false} EachAdopts(cfg: Config, R: iset<Cluster>, c: Cluster, ws: set<NodeId>, a: NodeId)
    returns (c': Cluster)
    requires Reached(cfg, R, c) && Closed(cfg, R) && c.servers.Keys == cfg.members && ws <= cfg.members
    requires AllVoted(c, ws, a)
    ensures Later(cfg, R, c, c') && OnlyMoved(c, c', ws) && All(c', ws, Standing(2, None, []))
    decreases ws
  {
    if ws == {} {
      c' := c;
    } else {
      var w :| w in ws;
      var c1 := AdoptLate(cfg, R, c, w, 2);
      forall v | v in ws - {w} ensures c1.servers[v] == c.servers[v] {
      }
      c' := EachAdopts(cfg, R, c1, ws - {w}, a);
      assert c'.servers[w] == c1.servers[w];
    }
  }

  /** `a` wins term 2 with voters that have seen the term and not yet adopted it. */
  lemma FirstWin(cfg: Config, R: iset<Cluster>, c: Cluster, k: Cast3) returns (c': Cluster)
    requires Reached(cfg, R, c) && c.servers.Keys == cfg.members && Cast3Ok(cfg, k)
    requires Stands(c, k.a, 2, []) && AllHaveSeen(c, k.voters)
    ensures Later(cfg, R, c, c') && OnlyMoved(c, c', k.voters + {k.a}) && Slot(2, k.a) in c'.hist.elections
    ensures AllVoted(c', k.voters, k.a) && Leads(cfg, c', k.a, 2, []) && NextIs(c', k.a, cfg.members - {k.a}, 1)
  {
    OwnPeersOnly(cfg, R, c, k.a);
    forall v | v in k.voters ensures Answer(c, k.a, v).1.granted && VotedFor(Answer(c, k.a, v).0, k.a) {
      VotesLate(c, k.a, v);
    }
    c' := Win(cfg, R, c, k.a, k.voters);
    forall w | w in k.voters ensures HasSeen(c', w, 2) && VotedFor(c'.servers[w].node, k.a) {
      assert HasSeen(c, w, 2);
    }
  }

  lemma VotesLate(c: Cluster, a: NodeId, v: NodeId)
    requires Stands(c, a, 2, []) && v in c.servers && Votable(c.servers[v].node)
    ensures Answer(c, a, v).1.granted && VotedFor(Answer(c, a, v).0, a)
  {
  }

  /** Both rivals lead term 2, with the same voters. */
  ghost predicate TwoLeaders(cfg: Config, R: iset<Cluster>, c: Cluster, k: Cast3) {
    && Reached(cfg, R, c) && c.servers.Keys == cfg.members
    && Leads(cfg, c, k.a, 2, []) && NextIs(c, k.a, cfg.members - {k.a}, 1)
    && Leads(cfg, c, k.b, 2, []) && NextIs(c, k.b, cfg.members - {k.b}, 1)
    && All(c, k.voters, Standing(2, Some(k.b), []))
    && Slot(2, k.a) in c.hist.elections && Slot(2, k.b) in c.hist.elections
  }

  lemma ReachSeen(cfg: Config, R: iset<Cluster>, k: Cast3) returns (c: Cluster)
    requires Cast3Ok(cfg, k) && Reached(cfg, R, Init(cfg))
    ensures Reached(cfg, R, c) && c.servers.Keys == cfg.members
    ensures Stands(c, k.a, 2, []) && AllHaveSeen(c, k.voters) && Rests(c, k.b, 0, None, [])
  {
    var c0 := Init(cfg);
    var c1 := EachBegins(cfg, R, c0, k.voters);
    assert Rests(c1, k.a, 0, None, []) && Rests(c1, k.b, 0, None, []);
    var c2 := StandTwice(cfg, R, c1, k.a, 0, None, []);
    forall w | w in k.voters ensures Stands(c2, w, 1, []) {
      StandsKept(c1, c2, {k.a}, w, 1, []);
    }
    c := EachSees(cfg, R, c2, k.voters, k.a);
    StandsKept(c2, c, k.voters, k.a, 2, []);
    assert c.servers[k.b] == c2.servers[k.b] == c1.servers[k.b];
  }

  /** `a` leads term 2, and its voters have forgotten their votes. */
  ghost predicate Forgotten(cfg: Config, R: iset<Cluster>, c: Cluster, k: Cast3) {
    && Reached(cfg, R, c) && c.servers.Keys == cfg.members && Slot(2, k.a) in c.hist.elections
    && Leads(cfg, c, k.a, 2, []) && NextIs(c, k.a, cfg.members - {k.a}, 1)
    && All(c, k.voters, Standing(2, None, [])) && Rests(c, k.b, 0, None, [])
  }

  lemma ReachForgotten(cfg: Config, R: iset<Cluster>, k: Cast3) returns (c: Cluster)
    requires Cast3Ok(cfg, k) && Reached(cfg, R, Init(cfg)) && Closed(cfg, R)
    ensures Forgotten(cfg, R, c, k)
  {
    var c1 := ReachSeen(cfg, R, k);
    var c2 := FirstWin(cfg, R, c1, k);
    RestsKept(c1, c2, k.voters + {k.a}, k.b, 0, None, []);
    c := EachAdopts(cfg, R, c2, k.voters, k.a);
    RestsKept(c2, c, k.voters, k.b, 0, None, []);
    LeadsKept(cfg, c2, c, k.voters, k.a, 2, [], 1);
  }

  lemma ReachTwoLeaders(cfg: Config, R: iset<Cluster>, k: Cast3, c0: Cluster) returns (c: Cluster)
    requires Cast3Ok(cfg, k) && Forgotten(cfg, R, c0, k)
    ensures TwoLeaders(cfg, R, c, k)
  {
    var none := Standing(2, None, []);
    var c1 := StandTwice(cfg, R, c0, k.b, 0, None, []);
    AllKept(c0, c1, {k.b}, k.voters, none);
    LeadsKept(cfg, c0, c1, {k.b}, k.a, 2, [], 1);
    assert k.voters + {} == k.voters;
    c := Lead(cfg, R, c1, k.b, 2, [], k.voters, none, {}, none);
    LeadsKept(cfg, c1, c, k.voters + {} + {k.b}, k.a, 2, [], 1);
  }

  /** `a` has committed and applied A. */
  ghost predicate FirstCommitted(cfg: Config, R: iset<Cluster>, c: Cluster, k: Cast3) {
    && Reached(cfg, R, c) && c.servers.Keys == cfg.members && k.a in c.servers
    && c.servers[k.a].node.applied == Results([A], 0, 1) && c.servers[k.a].node.log == [A]
    && Created(c.hist.acks, k.a, 2)
    && Leads(cfg, c, k.b, 2, []) && NextIs(c, k.b, cfg.members - {k.b}, 1)
    && All(c, k.voters, Standing(2, Some(k.b), [A]))
    && Slot(2, k.a) in c.hist.elections && Slot(2, k.b) in c.hist.elections
  }

  lemma ReachFirstCommitted(cfg: Config, R: iset<Cluster>, k: Cast3, c0: Cluster) returns (c: Cluster)
    requires Cast3Ok(cfg, k) && TwoLeaders(cfg, R, c0, k)
    ensures FirstCommitted(cfg, R, c, k)
  {
    var st := Standing(2, Some(k.b), []);
    var c1 := Append(cfg, R, c0, k.a, 2, [], [1]);
    AllKept(c0, c1, {k.a}, k.voters, st);
    assert [] + [A] == [A] && k.voters + {} == k.voters;
    LeadsKept(cfg, c0, c1, {k.a}, k.b, 2, [], 1);
    c := Settle(cfg, R, c1, k.a, 2, [A], k.voters, st, {}, st);
    LeadsKept(cfg, c1, c, k.voters + {} + {k.a}, k.b, 2, [], 1);
  }

  /** A voter that holds A confirms B, for both have the same term. */
  lemma Confirms(n: NodeState, leader: NodeId)
    requires n.term == 2 && n.log == [A]
    ensures var (n', reply) := HandleAppendEntries(n, AppendRequest(2, leader, 0, 0, [B], 0));
      reply == AppendReply(2, true) && n'.log == [A]
  {
    assert [B][1..] == [];
    assert MergeEntries([A], 0, [B]) == MergeEntries([A], 1, []);
  }

  /** And `b` has committed and applied B at the same index. */
  lemma ReachLateEnd(cfg: Config, R: iset<Cluster>, k: Cast3, c0: Cluster) returns (c: Cluster)
    requires Cast3Ok(cfg, k) && FirstCommitted(cfg, R, c0, k)
    ensures c in R && k.a in c.servers && k.b in c.servers
    ensures c.servers[k.a].node.applied == Results([A], 0, 1) && c.servers[k.b].node.applied == Results([B], 0, 1)
    ensures c.servers[k.a].node.log == [A] && c.servers[k.b].node.log == [B]
    ensures Slot(2, k.a) in c.hist.elections && Slot(2, k.b) in c.hist.elections
    ensures Created(c.hist.acks, k.a, 2) && Created(c.hist.acks, k.b, 2)
  {
    var st := Standing(2, Some(k.b), [A]);
    var c1 := Append(cfg, R, c0, k.b, 2, [], [2]);
    AllKept(c0, c1, {k.b}, k.voters, st);
    assert [] + [B] == [B] && [B][0..] == [B];
    NothingToFill(cfg, c1.servers[k.b].node, k.b);
    forall v | v in k.voters ensures WouldAccept(cfg, c1, k.b, v) {
      assert RoundMsg(cfg, c1, k.b, v).req == AppendRequest(2, k.b, 0, 0, [B], 0);
      Confirms(c1.servers[v].node, k.b);
    }
    assert c1.servers[k.a] == c0.servers[k.a];
    c := CommitRound(cfg, R, c1, k.b, k.voters);
    assert c.servers[k.a] == c1.servers[k.a];
  }

  /** Any request of `b` on the way there is accepted, and yet leaves the voter with A. */
  lemma ReachMisread(cfg: Config, R: iset<Cluster>, k: Cast3, c0: Cluster) returns (c: Cluster, m: AppendMsg)
    requires Cast3Ok(cfg, k) && FirstCommitted(cfg, R, c0, k)
    ensures c in R && m in c.net.appends && !AcceptsLog(c, m)
  {
    var c1 := Append(cfg, R, c0, k.b, 2, [], [2]);
    AllKept(c0, c1, {k.b}, k.voters, Standing(2, Some(k.b), [A]));
    assert |k.voters| >= 1;
    var v :| v in k.voters;
    assert [] + [B] == [B] && [B][0..] == [B];
    NothingToFill(cfg, c1.servers[k.b].node, k.b);
    m := RoundMsg(cfg, c1, k.b, v);
    assert m.req == AppendRequest(2, k.b, 0, 0, [B], 0);
    c := BeginRound(cfg, R, c1, k.b);
    assert c.servers[v] == c1.servers[v];
    Confirms(c.servers[v].node, k.b);
  }

  /** What `AcceptedLog` says of a request and its receiver. */
  ghost predicate AcceptsLog(c: Cluster, m: AppendMsg) {
    m.to in c.servers ==>
      var n := c.servers[m.to].node;
      var (n', reply) := HandleAppendEntries(n, m.req);
      && (reply.success ==> n'.log == if m.log <= n.log then n.log else m.log)
      && (!reply.success ==> n'.log == n.log)
  }

  lemma DifferentResults()
    ensures Results([A], 0, 1) == [ApplyResult(true, [1], 1)] && Results([B], 0, 1) == [ApplyResult(true, [2], 1)]
  {
  }

  /** Logs with the same term at the same index are the same up to it. */
  ghost predicate AllMatch(c: Cluster) {
    forall i, j :: i in c.servers && j in c.servers ==> LogsMatch(c.servers[i].node.log, c.servers[j].node.log)
  }

  /** Every cluster of three nodes or more has a run with two leaders in one term, two different
      entries of the same index and term by two creators, and two commands applied at one index. */
  lemma LateRun(cfg: Config) returns (run: seq<Action>)
    requires |cfg.members| >= 3
    ensures var c := After(cfg, run);
      !OneLeaderPerTerm(c) && !AllMatch(c) && !NoDivergence(c) && !OneCreator(cfg, run)
  {
    var k := Casting3(cfg);
    var R := AllRuns(cfg);
    var c := ReachForgotten(cfg, R, k);
    c := ReachTwoLeaders(cfg, R, k, c);
    c := ReachFirstCommitted(cfg, R, k, c);
    c := ReachLateEnd(cfg, R, k, c);
    run :| After(cfg, run) == c;
    DifferentResults();
    assert Slot(2, k.a) != Slot(2, k.b);
    assert !SameAt(c.servers[k.a].node.applied, c.servers[k.b].node.applied, 0);
    assert [A][..1] == [A] && [B][..1] == [B] && !MatchAt([A], [B], 0);
    assert !LogsMatch(c.servers[k.a].node.log, c.servers[k.b].node.log);
    TwoCreators(cfg, run, k.a, k.b, 2);
  }

  /** Only one node ever creates entries in a term. */
  ghost predicate OneCreator(cfg: Config, run: seq<Action>) {
    forall p, q, i, j, t :: CreatesAt(cfg, run, p, i, t) && CreatesAt(cfg, run, q, j, t) ==> i == j
  }

  lemma TwoCreators(cfg: Config, run: seq<Action>, i: NodeId, j: NodeId, t: Term)
    requires i != j && Created(After(cfg, run).hist.acks, i, t) && Created(After(cfg, run).hist.acks, j, t)
    ensures !OneCreator(cfg, run)
  {
    CreatedExactly(cfg, run, i, t);
    CreatedExactly(cfg, run, j, t);
    var p :| CreatesAt(cfg, run, p, i, t);
    var q :| CreatesAt(cfg, run, q, j, t);
  }

  lemma MisreadRun(cfg: Config) returns (run: seq<Action>, m: AppendMsg)
    requires |cfg.members| >= 3
    ensures m in After(cfg, run).net.appends && !AcceptsLog(After(cfg, run), m)
  {
    var k := Casting3(cfg);
    var R := AllRuns(cfg);
    var c := ReachForgotten(cfg, R, k);
    c := ReachTwoLeaders(cfg, R, k, c);
    c := ReachFirstCommitted(cfg, R, k, c);
    c, m := ReachMisread(cfg, R, k, c);
    run :| After(cfg, run) == c;
  }

  // ----- two nodes that forget votes -----

  /** `a` has seen term 2 of `b`, which stands in term 3 now. */
  ghost predicate Behind(cfg: Config, R: iset<Cluster>, c: Cluster, a: NodeId, b: NodeId) {
    && Reached(cfg, R, c) && c.servers.Keys == cfg.members && Stands(c, b, 3, [])
    && HasSeen(c, a, 2) && Votable(c.servers[a].node)
  }

  lemma ReachBehind(cfg: Config, R: iset<Cluster>, a: NodeId, b: NodeId) returns (c: Cluster)
    requires cfg.members == {a, b} && a != b && Reached(cfg, R, Init(cfg)) && Quorum(cfg) == 2
    ensures Behind(cfg, R, c, a, b)
  {
    var c0 := Init(cfg);
    var c1 := Begin(cfg, R, c0, a, 0, None, []);
    assert Rests(c1, b, 0, None, []);
    var c2 := StandTwice(cfg, R, c1, b, 0, None, []);
    StandsKept(c1, c2, {b}, a, 1, []);
    var c3 := See(cfg, R, c2, a, b);
    StandsKept(c2, c3, {a}, b, 2, []);
    var c4 := GiveUp(cfg, R, c3, b, 2, []);
    c := Begin(cfg, R, c4, b, 2, Some(b), []);
    assert c.servers[a] == c4.servers[a] == c3.servers[a];
  }

  /** `b` leads term 3 with the vote of `a`, which is about to fall back to term 2. */
  lemma ReachFallback(cfg: Config, R: iset<Cluster>, a: NodeId, b: NodeId, c0: Cluster) returns (c: Cluster)
    requires cfg.members == {a, b} && a != b && Behind(cfg, R, c0, a, b) && Quorum(cfg) == 2
    ensures Reached(cfg, R, c) && c.servers.Keys == cfg.members && Slot(3, b) in c.hist.elections
    ensures Leads(cfg, c, b, 3, []) && NextIs(c, b, {a}, 1) && FallsBack(c, a, [])
  {
    OwnPeersOnly(cfg, R, c0, b);
    c := Win(cfg, R, c0, b, {a});
    assert a in {a};
  }

  ghost predicate FallsBack(c: Cluster, a: NodeId, log: Log) {
    HasSeen(c, a, 2) && c.servers[a].node.term == 3 && c.servers[a].node.log == log && Blank(c.servers[a].node)
  }

  const E := Entry(3, [1])

  /** `b` creates E, which reaches `a`, and steps down. */
  lemma ReachStepDown(cfg: Config, R: iset<Cluster>, a: NodeId, b: NodeId, c0: Cluster) returns (c: Cluster)
    requires cfg.members == {a, b} && a != b && !cfg.keepVote && Quorum(cfg) == 2
    requires Reached(cfg, R, c0) && c0.servers.Keys == cfg.members && Slot(3, b) in c0.hist.elections
    requires Leads(cfg, c0, b, 3, []) && NextIs(c0, b, {a}, 1) && FallsBack(c0, a, [])
    ensures Reached(cfg, R, c) && c.servers.Keys == cfg.members && Slot(3, b) in c.hist.elections
    ensures Created(c.hist.acks, b, 3) && Rests(c, b, 3, None, [E]) && FallsBack(c, a, [E])
  {
    var c1 := Append(cfg, R, c0, b, 3, [], [1]);
    assert [] + [E] == [E] && [E][0..] == [E];
    NothingToFill(cfg, c1.servers[b].node, b);
    var m := RoundMsg(cfg, c1, b, a);
    assert a in {a} && m.req == AppendRequest(3, b, 0, 0, [E], 0);
    var c2 := QuitAlone(cfg, R, c1, b, 3, [E]);
    assert c2.servers[a] == c1.servers[a] == c0.servers[a];
    TakesOver(c2.servers[a].node, m.req);
    c := Deliver(cfg, R, c2, m);
    RestsKept(c2, c, {a}, b, 3, None, [E]);
  }

  /** `a` falls back to term 2, stands in term 3 and wins with the vote that `b` forgot. */
  lemma ReachSecond(cfg: Config, R: iset<Cluster>, a: NodeId, b: NodeId, c0: Cluster) returns (c: Cluster)
    requires cfg.members == {a, b} && a != b && Quorum(cfg) == 2 && Closed(cfg, R)
    requires Reached(cfg, R, c0) && c0.servers.Keys == cfg.members && Slot(3, b) in c0.hist.elections
    requires Created(c0.hist.acks, b, 3) && Rests(c0, b, 3, None, [E]) && FallsBack(c0, a, [E])
    ensures c in R && Slot(3, a) in c.hist.elections && Slot(3, b) in c.hist.elections
    ensures Created(c.hist.acks, a, 3) && Created(c.hist.acks, b, 3)
  {
    var c1 := AdoptLate(cfg, R, c0, a, 2);
    RestsKept(c0, c1, {a}, b, 3, None, [E]);
    var c2 := Begin(cfg, R, c1, a, 2, None, [E]);
    RestsKept(c1, c2, {a}, b, 3, None, [E]);
    var c3 := LeadBy(cfg, R, c2, a, 3, [E], {b});
    c := Append(cfg, R, c3, a, 3, [E], [2]);
    MoreCreated(c0.hist.acks, c.hist.acks, b, 3);
  }

  lemma MoreCreated(acks: set<Ack>, more: set<Ack>, i: NodeId, t: Term)
    requires Created(acks, i, t) && acks <= more
    ensures Created(more, i, t)
  {
  }

  lemma TwoNodeRun(cfg: Config) returns (run: seq<Action>)
    requires |cfg.members| == 2 && !cfg.keepVote
    ensures !OneLeaderPerTerm(After(cfg, run)) && !OneCreator(cfg, run)
  {
    var a :| a in cfg.members;
    assert |cfg.members - {a}| == 1;
    var b :| b in cfg.members - {a};
    assert |cfg.members - {a} - {b}| == 0;
    assert cfg.members == {a, b};
    var R := AllRuns(cfg);
    var c := ReachBehind(cfg, R, a, b);
    c := ReachFallback(cfg, R, a, b, c);
    c := ReachStepDown(cfg, R, a, b, c);
    c := ReachSecond(cfg, R, a, b, c);
    run :| After(cfg, run) == c;
    assert Slot(3, a) != Slot(3, b);
    TwoCreators(cfg, run, a, b, 3);
  }

  // ----- each guarantee, exactly -----

  /** Over all runs, however late terms are adopted: at most one leader per term in exactly the
      clusters of one node, and of two nodes that keep their votes. */
  lemma OneLeaderExactlyWhenSmall(cfg: Config)
    ensures (forall run :: OneLeaderPerTerm(After(cfg, run))) <==>
            |cfg.members| <= 1 || (|cfg.members| == 2 && cfg.keepVote)
  {
    if |cfg.members| <= 1 || (|cfg.members| == 2 && cfg.keepVote) {
      forall run ensures OneLeaderPerTerm(After(cfg, run)) {
        OneLeaderOfTwo(cfg, run);
      }
    } else if |cfg.members| == 2 {
      var run := TwoNodeRun(cfg);
    } else {
      var run := LateRun(cfg);
    }
  }

  /** No two nodes apply different commands at one index in exactly the clusters of at most two
      nodes, whether or not they keep their votes. */
  lemma SafeExactlyWhenSmall(cfg: Config)
    ensures (forall run :: NoDivergence(After(cfg, run))) <==> |cfg.members| <= 2
  {
    if |cfg.members| <= 2 {
      forall run ensures NoDivergence(After(cfg, run)) {
        var c := After(cfg, run);
        forall i, j, n | i in c.servers && j in c.servers
          ensures SameAt(c.servers[i].node.applied, c.servers[j].node.applied, n)
        {
          SameApplied(cfg, run, i, j);
        }
      }
    } else {
      var run := LateRun(cfg);
    }
  }

  /** And the same for log matching. */
  lemma MatchingExactlyWhenSmall(cfg: Config)
    ensures (forall run :: AllMatch(After(cfg, run))) <==> |cfg.members| <= 2
  {
    if |cfg.members| <= 2 {
      forall run ensures AllMatch(After(cfg, run)) {
        var c := After(cfg, run);
        forall i, j | i in c.servers && j in c.servers
          ensures LogsMatch(c.servers[i].node.log, c.servers[j].node.log)
        {
          OneChain(cfg, run, i, j);
        }
      }
    } else {
      var run := LateRun(cfg);
    }
  }

  /** And for what accepting a request does to a log. */
  lemma AcceptingExactlyWhenSmall(cfg: Config)
    ensures (forall run, m :: m in After(cfg, run).net.appends ==> AcceptsLog(After(cfg, run), m)) <==>
            |cfg.members| <= 2
  {
    if |cfg.members| <= 2 {
      forall run, m | m in After(cfg, run).net.appends ensures AcceptsLog(After(cfg, run), m) {
        var c := After(cfg, run);
        ChainAlways(cfg, run);
        assert SentByPeer(cfg, m);
        RequestComparable(cfg, c, m);
        ChainAccepts(c.servers[m.to].node, m);
      }
    } else {
      var run, m := MisreadRun(cfg);
    }
  }

  lemma {:induction false} ElectionsKept(cfg: Config, run: seq<Action>, p: nat)
    requires p <= |run|
    ensures After(cfg, run[..p]).hist.elections.Keys <= After(cfg, run).hist.elections.Keys
    decreases |run|
  {
    if p == |run| {
      assert run[..p] == run;
    } else {
      var before := run[..|run| - 1];
      assert before[..p] == run[..p];
      ElectionsKept(cfg, before, p);
      ElectionsStay(cfg, After(cfg, before), run[|run| - 1]);
    }
  }

  lemma CreatorWasElected(cfg: Config, run: seq<Action>, p: int, i: NodeId, t: Term)
    requires CreatesAt(cfg, run, p, i, t)
    ensures Slot(t, i) in After(cfg, run).hist.elections
  {
    BaseAlways(cfg, run[..p]);
    Facts(cfg, After(cfg, run[..p]), i);
    ElectionsKept(cfg, run, p);
  }

  lemma OneLeaderOneCreator(cfg: Config, run: seq<Action>)
    requires OneLeaderPerTerm(After(cfg, run))
    ensures OneCreator(cfg, run)
  {
    forall p, q, i, j, t | CreatesAt(cfg, run, p, i, t) && CreatesAt(cfg, run, q, j, t) ensures i == j {
      CreatorWasElected(cfg, run, p, i, t);
      CreatorWasElected(cfg, run, q, j, t);
    }
  }

  /** Only one node creates entries in a term in exactly the clusters that elect at most one
      leader per term. */
  lemma OneCreatorExactlyWhenSmall(cfg: Config)
    ensures (forall run :: OneCreator(cfg, run)) <==> |cfg.members| <= 1 || (|cfg.members| == 2 && cfg.keepVote)
  {
    if |cfg.members| <= 1 || (|cfg.members| == 2 && cfg.keepVote) {
      forall run ensures OneCreator(cfg, run) {
        OneLeaderOfTwo(cfg, run);
        OneLeaderOneCreator(cfg, run);
      }
    } else if |cfg.members| == 2 {
      var run := TwoNodeRun(cfg);
    } else {
      var run := LateRun(cfg);
    }
  }

  /** In prompt runs it is so in every cluster. */
  lemma OneCreatorWhenPrompt(cfg: Config, run: seq<Action>)
    requires Prompt(cfg, run)
    ensures OneCreator(cfg, run)
  {
    forall p, q, i, j, t | CreatesAt(cfg, run, p, i, t) && CreatesAt(cfg, run, q, j, t) ensures i == j {
      if p < q {
        SameCreator(cfg, run, p, q, i, j, t);
      } else if q < p {
        SameCreator(cfg, run, q, p, j, i, t);
      }
    }
  }

  lemma SameCreator(cfg: Config, run: seq<Action>, p: int, q: int, i: NodeId, j: NodeId, t: Term)
    requires Prompt(cfg, run) && p < q && CreatesAt(cfg, run, p, i, t) && CreatesAt(cfg, run, q, j, t)
    ensures i == j
  {
    assert run[..p] + [run[p]] + run[p + 1..q] == run[..q] && run[..q] + run[q..] == run;
    PromptBefore(cfg, run[..q], run[q..]);
    assert run[p] == ProposeCommand(i, run[p].command);
    OneCreatorPerTerm(cfg, run[..p], run[p + 1..q], i, run[p].command, j);
  }
}
