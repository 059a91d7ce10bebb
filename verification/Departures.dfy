/** What forgetting votes costs, exactly.

    A leader that steps down for lack of a majority forgets its vote of the current term. This
    module constructs runs of every cluster that is not `Steady` in which two nodes lead the same
    term, two nodes apply different commands at index 1, and committed entries are cut; together
    with the theorems it follows that each guarantee holds for all prompt runs in exactly the
    steady clusters. */
module Departures {
  import opened RaftTypes
  import opened RaftSteps
  import opened Cluster
  import opened ElectionSafety
  import opened AnyRun
  import opened RaftTheorems
  import opened RunBuilding

  /** The parts: two rivals `a` and `b`, a follower `p` caught between them, and the rest of the
      cluster in two equal camps. */
  datatype Cast = Cast(a: NodeId, b: NodeId, p: NodeId, near: set<NodeId>, far: set<NodeId>)

  ghost predicate CastOk(cfg: Config, k: Cast) {
    && !cfg.keepVote && cfg.members == {k.a, k.b, k.p} + k.near + k.far
    && k.a != k.b && k.a != k.p && k.b != k.p
    && k.near !! k.far && k.near !! {k.a, k.b, k.p} && k.far !! {k.a, k.b, k.p}
    && |k.near| == |k.far| && Quorum(cfg) == |k.near| + 2
  }

  lemma Sizes(cfg: Config, k: Cast)
    requires CastOk(cfg, k)
    ensures |k.near + {k.p}| + 1 == |k.far + {k.p}| + 1 == |k.far + {k.a}| + 1 == |k.near + {k.a}| + 1 == Quorum(cfg)
    ensures k.near + {k.p} <= cfg.members - {k.a} && k.far + {k.p} <= cfg.members - {k.b}
    ensures k.far + {k.a} <= cfg.members - {k.b} && k.near + {k.a} <= cfg.members - {k.p}
  {
  }

  lemma {:induction false} HalfOf(s: set<NodeId>) returns (half: set<NodeId>)
    requires |s| % 2 == 0
    ensures half <= s && |half| == |s - half|
    decreases |s|
  {
    if s == {} {
      half := {};
    } else {
      var x :| x in s;
      assert |s - {x}| == |s| - 1;
      var y :| y in s - {x};
      assert |s - {x} - {y}| == |s| - 2;
      var rest := HalfOf(s - {x} - {y});
      half := rest + {x};
      assert s - half == (s - {x} - {y} - rest) + {y};
    }
  }

  lemma Casting(cfg: Config) returns (k: Cast)
    requires !Steady(cfg)
    ensures CastOk(cfg, k)
  {
    var m := cfg.members;
    var a :| a in m;
    assert |m - {a}| == |m| - 1;
    var b :| b in m - {a};
    assert |m - {a} - {b}| == |m| - 2;
    var p :| p in m - {a} - {b};
    var rest := m - {a} - {b} - {p};
    assert |rest| == |m| - 3;
    var near := HalfOf(rest);
    assert |rest| == |near| + |rest - near|;
    k := Cast(a, b, p, near, rest - near);
  }

  const X := Entry(1, [1])
  const Y := Entry(2, [2])
  const Z := Entry(3, [3])
  const W := Entry(4, [4])

  // ----- the run, stage by stage -----

  /** Where the bystanders are. */
  ghost predicate Others(cfg: Config, R: iset<Cluster>, c: Cluster, k: Cast, p: Standing, near: Standing,
                         far: Standing)
  {
    && Reached(cfg, R, c) && c.servers.Keys == cfg.members
    && All(c, {k.p}, p) && All(c, k.near, near) && All(c, k.far, far)
    && k.p in c.servers && Blank(c.servers[k.p].node)
  }

  lemma OthersKept(cfg: Config, R: iset<Cluster>, c: Cluster, c': Cluster, k: Cast, rival: NodeId,
                   p: Standing, near: Standing, far: Standing)
    requires CastOk(cfg, k) && rival in {k.a, k.b}
    requires Others(cfg, R, c, k, p, near, far) && Later(cfg, R, c, c') && OnlyMoved(c, c', {rival})
    ensures Others(cfg, R, c', k, p, near, far)
  {
    AllKept(c, c', {rival}, {k.p}, p);
    AllKept(c, c', {rival}, k.near, near);
    AllKept(c, c', {rival}, k.far, far);
  }

  /** Term 1: `a` wins. */
  ghost predicate Stage1(cfg: Config, R: iset<Cluster>, c: Cluster, k: Cast) {
    && Others(cfg, R, c, k, Standing(1, Some(k.a), []), Standing(1, Some(k.a), []), Standing(0, None, []))
    && Leads(cfg, c, k.a, 1, []) && NextIs(c, k.a, cfg.members - {k.a}, 1) && Rests(c, k.b, 0, None, [])
  }

  lemma Opening(cfg: Config, R: iset<Cluster>, k: Cast)
    requires CastOk(cfg, k) && Reached(cfg, R, Init(cfg))
    ensures Others(cfg, R, Init(cfg), k, Standing(0, None, []), Standing(0, None, []), Standing(0, None, []))
    ensures Rests(Init(cfg), k.a, 0, None, []) && Rests(Init(cfg), k.b, 0, None, [])
  {
  }

  lemma FirstCandidacy(cfg: Config, R: iset<Cluster>, k: Cast) returns (c: Cluster)
    requires CastOk(cfg, k) && Reached(cfg, R, Init(cfg))
    ensures Others(cfg, R, c, k, Standing(0, None, []), Standing(0, None, []), Standing(0, None, []))
    ensures Stands(c, k.a, 1, []) && Rests(c, k.b, 0, None, [])
  {
    var none := Standing(0, None, []);
    Opening(cfg, R, k);
    c := Begin(cfg, R, Init(cfg), k.a, 0, None, []);
    OthersKept(cfg, R, Init(cfg), c, k, k.a, none, none, none);
    RestsKept(Init(cfg), c, {k.a}, k.b, 0, None, []);
  }

  lemma ReachStage1(cfg: Config, R: iset<Cluster>, k: Cast) returns (c: Cluster)
    requires CastOk(cfg, k) && Reached(cfg, R, Init(cfg))
    ensures Stage1(cfg, R, c, k)
  {
    var none := Standing(0, None, []);
    var c1 := FirstCandidacy(cfg, R, k);
    Sizes(cfg, k);
    c := Lead(cfg, R, c1, k.a, 1, [], k.near, none, {k.p}, none);
    AllKept(c1, c, k.near + {k.p} + {k.a}, k.far, none);
    RestsKept(c1, c, k.near + {k.p} + {k.a}, k.b, 0, None, []);
  }

  /** It stores X on `near` only, and steps down. */
  ghost predicate Stage2(cfg: Config, R: iset<Cluster>, c: Cluster, k: Cast) {
    && Others(cfg, R, c, k, Standing(1, Some(k.a), []), Standing(1, Some(k.a), [X]), Standing(0, None, []))
    && Rests(c, k.a, 1, None, [X]) && Rests(c, k.b, 0, None, [])
  }

  lemma ReachStage2(cfg: Config, R: iset<Cluster>, k: Cast, c0: Cluster) returns (c: Cluster)
    requires CastOk(cfg, k) && Stage1(cfg, R, c0, k)
    ensures Stage2(cfg, R, c, k)
  {
    var voted, none := Standing(1, Some(k.a), []), Standing(0, None, []);
    var c1 := Append(cfg, R, c0, k.a, 1, [], [1]);
    OthersKept(cfg, R, c0, c1, k, k.a, voted, voted, none);
    RestsKept(c0, c1, {k.a}, k.b, 0, None, []);
    assert [] + [X] == [X];
    c := Quit(cfg, R, c1, k.a, 1, [X], k.near, voted);
    AllKept(c1, c, k.near + {k.a}, {k.p}, voted);
    AllKept(c1, c, k.near + {k.a}, k.far, none);
    RestsKept(c1, c, k.near + {k.a}, k.b, 0, None, []);
  }

  /** Term 2: `b` stands. */
  ghost predicate Stage3(cfg: Config, R: iset<Cluster>, c: Cluster, k: Cast) {
    && Others(cfg, R, c, k, Standing(1, Some(k.a), []), Standing(1, Some(k.a), [X]), Standing(0, None, []))
    && Rests(c, k.a, 1, None, [X]) && Stands(c, k.b, 2, [])
  }

  lemma ReachStage3(cfg: Config, R: iset<Cluster>, k: Cast, c0: Cluster) returns (c: Cluster)
    requires CastOk(cfg, k) && Stage2(cfg, R, c0, k)
    ensures Stage3(cfg, R, c, k)
  {
    var p, near, far := Standing(1, Some(k.a), []), Standing(1, Some(k.a), [X]), Standing(0, None, []);
    c := StandTwice(cfg, R, c0, k.b, 0, None, []);
    OthersKept(cfg, R, c0, c, k, k.b, p, near, far);
    RestsKept(c0, c, {k.b}, k.a, 1, None, [X]);
  }

  /** It wins, */
  ghost predicate Stage4(cfg: Config, R: iset<Cluster>, c: Cluster, k: Cast) {
    && Others(cfg, R, c, k, Standing(2, Some(k.b), []), Standing(1, Some(k.a), [X]), Standing(2, Some(k.b), []))
    && Rests(c, k.a, 1, None, [X]) && Leads(cfg, c, k.b, 2, []) && NextIs(c, k.b, cfg.members - {k.b}, 1)
  }

  lemma ReachStage4(cfg: Config, R: iset<Cluster>, k: Cast, c0: Cluster) returns (c: Cluster)
    requires CastOk(cfg, k) && Stage3(cfg, R, c0, k)
    ensures Stage4(cfg, R, c, k)
  {
    var p, near, far := Standing(1, Some(k.a), []), Standing(1, Some(k.a), [X]), Standing(0, None, []);
    Sizes(cfg, k);
    c := Lead(cfg, R, c0, k.b, 2, [], k.far, far, {k.p}, p);
    AllKept(c0, c, k.far + {k.p} + {k.b}, k.near, near);
    RestsKept(c0, c, k.far + {k.p} + {k.b}, k.a, 1, None, [X]);
  }

  /** stores Y on `far` only, and steps down. */
  ghost predicate Stage5(cfg: Config, R: iset<Cluster>, c: Cluster, k: Cast) {
    && Others(cfg, R, c, k, Standing(2, Some(k.b), []), Standing(1, Some(k.a), [X]), Standing(2, Some(k.b), [Y]))
    && Rests(c, k.a, 1, None, [X]) && Rests(c, k.b, 2, None, [Y])
  }

  lemma ReachStage5(cfg: Config, R: iset<Cluster>, k: Cast, c0: Cluster) returns (c: Cluster)
    requires CastOk(cfg, k) && Stage4(cfg, R, c0, k)
    ensures Stage5(cfg, R, c, k)
  {
    var voted, near := Standing(2, Some(k.b), []), Standing(1, Some(k.a), [X]);
    var c1 := Append(cfg, R, c0, k.b, 2, [], [2]);
    OthersKept(cfg, R, c0, c1, k, k.b, voted, near, voted);
    RestsKept(c0, c1, {k.b}, k.a, 1, None, [X]);
    assert [] + [Y] == [Y];
    c := Quit(cfg, R, c1, k.b, 2, [Y], k.far, voted);
    AllKept(c1, c, k.far + {k.b}, {k.p}, voted);
    AllKept(c1, c, k.far + {k.b}, k.near, near);
    RestsKept(c1, c, k.far + {k.b}, k.a, 1, None, [X]);
  }

  /** Term 3: both stand. */
  ghost predicate Stage6(cfg: Config, R: iset<Cluster>, c: Cluster, k: Cast) {
    && Others(cfg, R, c, k, Standing(2, Some(k.b), []), Standing(1, Some(k.a), [X]), Standing(2, Some(k.b), [Y]))
    && Stands(c, k.a, 3, [X]) && Stands(c, k.b, 3, [Y])
  }

  lemma SecondStands(cfg: Config, R: iset<Cluster>, k: Cast, c0: Cluster) returns (c: Cluster)
    requires CastOk(cfg, k) && Stage5(cfg, R, c0, k)
    ensures Others(cfg, R, c, k, Standing(2, Some(k.b), []), Standing(1, Some(k.a), [X]), Standing(2, Some(k.b), [Y]))
    ensures Rests(c, k.a, 1, None, [X]) && Stands(c, k.b, 3, [Y])
  {
    var p, near, far := Standing(2, Some(k.b), []), Standing(1, Some(k.a), [X]), Standing(2, Some(k.b), [Y]);
    c := Begin(cfg, R, c0, k.b, 2, None, [Y]);
    OthersKept(cfg, R, c0, c, k, k.b, p, near, far);
    RestsKept(c0, c, {k.b}, k.a, 1, None, [X]);
  }

  lemma ReachStage6(cfg: Config, R: iset<Cluster>, k: Cast, c0: Cluster) returns (c: Cluster)
    requires CastOk(cfg, k) && Stage5(cfg, R, c0, k)
    ensures Stage6(cfg, R, c, k)
  {
    var p, near, far := Standing(2, Some(k.b), []), Standing(1, Some(k.a), [X]), Standing(2, Some(k.b), [Y]);
    var c1 := SecondStands(cfg, R, k, c0);
    c := StandTwice(cfg, R, c1, k.a, 1, None, [X]);
    OthersKept(cfg, R, c1, c, k, k.a, p, near, far);
    StandsKept(c1, c, {k.a}, k.b, 3, [Y]);
  }

  /** `a` wins first. */
  ghost predicate Stage7(cfg: Config, R: iset<Cluster>, c: Cluster, k: Cast) {
    && Others(cfg, R, c, k, Standing(3, Some(k.a), []), Standing(3, Some(k.a), [X]), Standing(2, Some(k.b), [Y]))
    && Leads(cfg, c, k.a, 3, [X]) && NextIs(c, k.a, cfg.members - {k.a}, 2) && Stands(c, k.b, 3, [Y])
    && Slot(3, k.a) in c.hist.elections
  }

  lemma ReachStage7(cfg: Config, R: iset<Cluster>, k: Cast, c0: Cluster) returns (c: Cluster)
    requires CastOk(cfg, k) && Stage6(cfg, R, c0, k)
    ensures Stage7(cfg, R, c, k)
  {
    var p, near, far := Standing(2, Some(k.b), []), Standing(1, Some(k.a), [X]), Standing(2, Some(k.b), [Y]);
    Sizes(cfg, k);
    c := Lead(cfg, R, c0, k.a, 3, [X], k.near, near, {k.p}, p);
    AllKept(c0, c, k.near + {k.p} + {k.a}, k.far, far);
    assert c.servers[k.b] == c0.servers[k.b];
  }

  /** The request that will come too late. */
  ghost function LateMsg(k: Cast): AppendMsg {
    AppendMsg(k.p, AppendRequest(3, k.a, 0, 0, [X], 0), [X])
  }

  /** It sends X to `p` from the beginning, and steps down. */
  ghost predicate Stage8(cfg: Config, R: iset<Cluster>, c: Cluster, k: Cast) {
    && Others(cfg, R, c, k, Standing(3, Some(k.a), []), Standing(3, Some(k.a), [X]), Standing(2, Some(k.b), [Y]))
    && Rests(c, k.a, 3, None, [X]) && Stands(c, k.b, 3, [Y])
    && Slot(3, k.a) in c.hist.elections && LateMsg(k) in c.net.appends
  }

  /** On the way there: its next request to `p` will be the late one. */
  ghost predicate BeforeStage8(cfg: Config, R: iset<Cluster>, c: Cluster, k: Cast) {
    && Others(cfg, R, c, k, Standing(3, Some(k.a), []), Standing(3, Some(k.a), [X]), Standing(2, Some(k.b), [Y]))
    && Leads(cfg, c, k.a, 3, [X]) && Stands(c, k.b, 3, [Y]) && Slot(3, k.a) in c.hist.elections
    && RoundMsg(cfg, c, k.a, k.p) == LateMsg(k)
  }

  lemma AlmostStage8(cfg: Config, R: iset<Cluster>, k: Cast, c0: Cluster) returns (c: Cluster)
    requires CastOk(cfg, k) && Stage7(cfg, R, c0, k)
    ensures BeforeStage8(cfg, R, c, k)
  {
    var p, near, far := Standing(3, Some(k.a), []), Standing(3, Some(k.a), [X]), Standing(2, Some(k.b), [Y]);
    c := GoBack(cfg, R, c0, k.a, 3, [X], k.p, p);
    AllKept(c0, c, {k.a, k.p}, k.near, near);
    AllKept(c0, c, {k.a, k.p}, k.far, far);
    StandsKept(c0, c, {k.a, k.p}, k.b, 3, [Y]);
    NothingToFill(cfg, c.servers[k.a].node, k.a);
  }

  lemma ReachStage8(cfg: Config, R: iset<Cluster>, k: Cast, c0: Cluster) returns (c: Cluster)
    requires CastOk(cfg, k) && Stage7(cfg, R, c0, k)
    ensures Stage8(cfg, R, c, k)
  {
    var p, near, far := Standing(3, Some(k.a), []), Standing(3, Some(k.a), [X]), Standing(2, Some(k.b), [Y]);
    var c1 := AlmostStage8(cfg, R, k, c0);
    c := QuitAlone(cfg, R, c1, k.a, 3, [X]);
    OthersKept(cfg, R, c1, c, k, k.a, p, near, far);
    StandsKept(c1, c, {k.a}, k.b, 3, [Y]);
  }

  /** `b` wins the same term, with the vote of `a`. */
  ghost predicate Stage9(cfg: Config, R: iset<Cluster>, c: Cluster, k: Cast) {
    && Others(cfg, R, c, k, Standing(3, Some(k.a), []), Standing(3, Some(k.a), [X]), Standing(3, Some(k.b), [Y]))
    && Rests(c, k.a, 3, Some(k.b), [X]) && Leads(cfg, c, k.b, 3, [Y]) && NextIs(c, k.b, cfg.members - {k.b}, 2)
    && Slot(3, k.a) in c.hist.elections && Slot(3, k.b) in c.hist.elections && LateMsg(k) in c.net.appends
  }

  lemma ReachStage9(cfg: Config, R: iset<Cluster>, k: Cast, c0: Cluster) returns (c: Cluster)
    requires CastOk(cfg, k) && Stage8(cfg, R, c0, k)
    ensures Stage9(cfg, R, c, k)
  {
    var p, near, far := Standing(3, Some(k.a), []), Standing(3, Some(k.a), [X]), Standing(2, Some(k.b), [Y]);
    RestsAlone(c0, k.a, Standing(3, None, [X]));
    Sizes(cfg, k);
    c := Lead(cfg, R, c0, k.b, 3, [Y], k.far, far, {k.a}, Standing(3, None, [X]));
    AllKept(c0, c, k.far + {k.a} + {k.b}, {k.p}, p);
    AllKept(c0, c, k.far + {k.a} + {k.b}, k.near, near);
    assert k.a in k.far + {k.a};
    AloneRests(c, k.a, Standing(3, Some(k.b), [X]));
  }

  /** It appends Z and learns that `p` lacks its log. */
  ghost predicate Stage10(cfg: Config, R: iset<Cluster>, c: Cluster, k: Cast) {
    && Others(cfg, R, c, k, Standing(3, Some(k.a), []), Standing(3, Some(k.a), [X]), Standing(3, Some(k.b), [Y]))
    && Rests(c, k.a, 3, Some(k.b), [X]) && Leads(cfg, c, k.b, 3, [Y, Z])
    && NextIs(c, k.b, k.far, 2) && NextIs(c, k.b, {k.p}, 1)
    && Slot(3, k.a) in c.hist.elections && Slot(3, k.b) in c.hist.elections && LateMsg(k) in c.net.appends
  }

  /** Both rivals have led term 3, and the late request is under way. */
  ghost predicate RivalsDone(c: Cluster, k: Cast) {
    Slot(3, k.a) in c.hist.elections && Slot(3, k.b) in c.hist.elections && LateMsg(k) in c.net.appends
  }

  lemma AppendZ(cfg: Config, R: iset<Cluster>, k: Cast, c0: Cluster) returns (c: Cluster)
    requires CastOk(cfg, k) && Stage9(cfg, R, c0, k)
    ensures Others(cfg, R, c, k, Standing(3, Some(k.a), []), Standing(3, Some(k.a), [X]), Standing(3, Some(k.b), [Y]))
    ensures Rests(c, k.a, 3, Some(k.b), [X]) && RivalsDone(c, k)
    ensures Leads(cfg, c, k.b, 3, [Y, Z]) && NextIs(c, k.b, cfg.members - {k.b}, 2)
  {
    var p, near, far := Standing(3, Some(k.a), []), Standing(3, Some(k.a), [X]), Standing(3, Some(k.b), [Y]);
    assert [Y] + [Z] == [Y, Z];
    c := Append(cfg, R, c0, k.b, 3, [Y], [3]);
    NextKept(c0, c, k.b, cfg.members - {k.b}, 2);
    OthersKept(cfg, R, c0, c, k, k.b, p, near, far);
    RestsKept(c0, c, {k.b}, k.a, 3, Some(k.b), [X]);
  }

  lemma ReachStage10(cfg: Config, R: iset<Cluster>, k: Cast, c0: Cluster) returns (c: Cluster)
    requires CastOk(cfg, k) && Stage9(cfg, R, c0, k)
    ensures Stage10(cfg, R, c, k)
  {
    var p, near, far := Standing(3, Some(k.a), []), Standing(3, Some(k.a), [X]), Standing(3, Some(k.b), [Y]);
    var c1 := AppendZ(cfg, R, k, c0);
    c := GoBack(cfg, R, c1, k.b, 3, [Y, Z], k.p, p);
    AllKept(c1, c, {k.b, k.p}, k.near, near);
    AllKept(c1, c, {k.b, k.p}, k.far, far);
    RestsKept(c1, c, {k.b, k.p}, k.a, 3, Some(k.b), [X]);
  }

  /** It commits Y and Z with `p` and `far`; */
  ghost predicate Stage11(cfg: Config, R: iset<Cluster>, c: Cluster, k: Cast) {
    && Reached(cfg, R, c) && c.servers.Keys == cfg.members && RivalsDone(c, k)
    && All(c, {k.p}, Standing(3, Some(k.a), [Y, Z])) && All(c, k.near, Standing(3, Some(k.a), [X]))
    && Rests(c, k.a, 3, Some(k.b), [X]) && HasCommitted(c, k) && c.servers[k.b].thread.Idle?
    && k.p in c.servers && Blank(c.servers[k.p].node)
  }

  /** `b` leads term 3, has committed and applied Y and Z, and knows that `p` has them. */
  ghost predicate HasCommitted(c: Cluster, k: Cast) {
    && k.b in c.servers && c.servers[k.b].node.applied == Results([Y, Z], 0, 2)
    && var n := c.servers[k.b].node;
       && n.role.Leader? && n.term == 3 && n.log == [Y, Z] && n.commitIndex == 2 && !c.servers[k.b].thread.Won?
       && k.p in n.matchIndex && n.matchIndex[k.p] == 2 && k.p in n.nextIndex && n.nextIndex[k.p] == 3
  }

  lemma ReachStage11(cfg: Config, R: iset<Cluster>, k: Cast, c0: Cluster) returns (c: Cluster)
    requires CastOk(cfg, k) && Stage10(cfg, R, c0, k)
    ensures Stage11(cfg, R, c, k)
  {
    var p, near, far := Standing(3, Some(k.a), []), Standing(3, Some(k.a), [X]), Standing(3, Some(k.b), [Y]);
    Sizes(cfg, k);
    c := Settle(cfg, R, c0, k.b, 3, [Y, Z], k.far, far, {k.p}, p);
    AllKept(c0, c, k.far + {k.p} + {k.b}, k.near, near);
    RestsKept(c0, c, k.far + {k.p} + {k.b}, k.a, 3, Some(k.b), [X]);
    assert k.p in k.far + {k.p};
  }

  /** its next heartbeat makes `p` commit and apply them too; */
  ghost predicate Told(c: Cluster, k: Cast) {
    && RivalsDone(c, k) && HasCommitted(c, k) && Rests(c, k.a, 3, Some(k.b), [X])
    && All(c, k.near, Standing(3, Some(k.a), [X]))
    && All(c, {k.p}, Standing(3, Some(k.a), [Y, Z])) && k.p in c.servers && c.servers[k.p].node.commitIndex == 2
    && c.servers[k.p].node.lastApplied == 2
  }

  lemma HeardCommit(n: NodeState, leader: NodeId)
    requires n.term == 3 && n.log == [Y, Z] && Blank(n)
    ensures var n' := HandleAppendEntries(n, AppendRequest(3, leader, 2, 3, [], 2)).0;
      && n'.log == [Y, Z] && n'.role.Follower? && n'.term == 3 && n'.votedFor == n.votedFor
      && n'.commitIndex == 2 && n'.lastApplied == 2
  {
  }

  lemma Heartbeat(cfg: Config, c: Cluster, k: Cast)
    requires HasCommitted(c, k)
    ensures RoundMsg(cfg, c, k.b, k.p).req == AppendRequest(3, k.b, 2, 3, [], 2) && RoundMsg(cfg, c, k.b, k.p).to == k.p
  {
    assert [Y, Z][2..] == [];
  }

  /** The heartbeat is under way. */
  ghost predicate Telling(cfg: Config, R: iset<Cluster>, c: Cluster, k: Cast, m: AppendMsg) {
    && Reached(cfg, R, c) && c.servers.Keys == cfg.members && RivalsDone(c, k) && HasCommitted(c, k)
    && All(c, {k.p}, Standing(3, Some(k.a), [Y, Z])) && All(c, k.near, Standing(3, Some(k.a), [X]))
    && Rests(c, k.a, 3, Some(k.b), [X]) && k.p in c.servers && Blank(c.servers[k.p].node)
    && m in c.net.appends && m.req == AppendRequest(3, k.b, 2, 3, [], 2) && m.to == k.p
  }

  lemma ReachTelling(cfg: Config, R: iset<Cluster>, k: Cast, c0: Cluster) returns (c: Cluster, m: AppendMsg)
    requires CastOk(cfg, k) && Stage11(cfg, R, c0, k)
    ensures Telling(cfg, R, c, k, m)
  {
    m := RoundMsg(cfg, c0, k.b, k.p);
    Heartbeat(cfg, c0, k);
    c := BeginRound(cfg, R, c0, k.b);
    AllKept(c0, c, {k.b}, k.near, Standing(3, Some(k.a), [X]));
    AllKept(c0, c, {k.b}, {k.p}, Standing(3, Some(k.a), [Y, Z]));
    RestsKept(c0, c, {k.b}, k.a, 3, Some(k.b), [X]);
  }

  lemma ReachTold(cfg: Config, R: iset<Cluster>, k: Cast, c0: Cluster, m: AppendMsg) returns (c: Cluster)
    requires CastOk(cfg, k) && Telling(cfg, R, c0, k, m)
    ensures Reached(cfg, R, c) && c.servers.Keys == cfg.members && Told(c, k)
  {
    assert k.p in {k.p};
    HeardCommit(c0.servers[k.p].node, k.b);
    c := Deliver(cfg, R, c0, m);
    AllKept(c0, c, {k.p}, k.near, Standing(3, Some(k.a), [X]));
    RestsKept(c0, c, {k.p}, k.a, 3, Some(k.b), [X]);
  }

  /** the late request makes `p` drop both; */
  ghost predicate Cut(c: Cluster, k: Cast) {
    && RivalsDone(c, k) && HasCommitted(c, k) && Rests(c, k.a, 3, Some(k.b), [X])
    && All(c, k.near, Standing(3, Some(k.a), [X]))
    && All(c, {k.p}, Standing(3, Some(k.a), [X])) && k.p in c.servers && c.servers[k.p].node.commitIndex == 2
  }

  lemma Truncates(n: NodeState, k: Cast)
    requires n.term == 3 && n.log == [Y, Z] && n.commitIndex == 2 && n.lastApplied == 2
    ensures var n' := HandleAppendEntries(n, LateMsg(k).req).0;
      n'.log == [X] && n'.role.Follower? && n'.term == 3 && n'.votedFor == n.votedFor && n'.commitIndex == 2
  {
    var log := [Y, Z];
    assert [X][1..] == [] && log[..0] + [X] == [X];
    assert MergeEntries(log, 0, [X]) == MergeEntries([X], 1, []);
  }

  lemma ReachCut(cfg: Config, R: iset<Cluster>, k: Cast, c0: Cluster) returns (c: Cluster)
    requires CastOk(cfg, k) && Reached(cfg, R, c0) && c0.servers.Keys == cfg.members && Told(c0, k)
    ensures Reached(cfg, R, c) && c.servers.Keys == cfg.members && Cut(c, k)
  {
    assert k.p in {k.p};
    c := Deliver(cfg, R, c0, LateMsg(k));
    Truncates(c0.servers[k.p].node, k);
    AllKept(c0, c, {k.p}, k.near, Standing(3, Some(k.a), [X]));
    RestsKept(c0, c, {k.p}, k.a, 3, Some(k.b), [X]);
  }

  /** in term 4 `a` wins again */
  ghost predicate Stage13(cfg: Config, R: iset<Cluster>, c: Cluster, k: Cast) {
    && Reached(cfg, R, c) && c.servers.Keys == cfg.members && HasCommitted(c, k)
    && All(c, {k.p}, Standing(4, Some(k.a), [X])) && All(c, k.near, Standing(4, Some(k.a), [X]))
    && Leads(cfg, c, k.a, 4, [X]) && NextIs(c, k.a, cfg.members - {k.a}, 2)
    && Slot(3, k.a) in c.hist.elections && Slot(3, k.b) in c.hist.elections
  }

  lemma ReachStage13(cfg: Config, R: iset<Cluster>, k: Cast, c0: Cluster) returns (c: Cluster)
    requires CastOk(cfg, k) && Reached(cfg, R, c0) && c0.servers.Keys == cfg.members && Cut(c0, k)
    ensures Stage13(cfg, R, c, k)
  {
    var st := Standing(3, Some(k.a), [X]);
    var c1 := Begin(cfg, R, c0, k.a, 3, Some(k.b), [X]);
    AllKept(c0, c1, {k.a}, k.near, st);
    AllKept(c0, c1, {k.a}, {k.p}, st);
    Sizes(cfg, k);
    c := Lead(cfg, R, c1, k.a, 4, [X], k.near, st, {k.p}, st);
    assert c.servers[k.b] == c1.servers[k.b] == c0.servers[k.b];
  }

  /** and commits X and W with `p` and `near`. */
  ghost predicate Diverged(c: Cluster, k: Cast) {
    && k.a in c.servers && k.b in c.servers && HasCommitted(c, k)
    && c.servers[k.a].node.applied == Results([X, W], 0, 2)
    && c.servers[k.a].node.role.Leader? && c.servers[k.a].node.term == 4 && c.servers[k.a].node.log == [X, W]
    && Slot(3, k.a) in c.hist.elections && Slot(3, k.b) in c.hist.elections
  }

  lemma ReachEnd(cfg: Config, R: iset<Cluster>, k: Cast, c0: Cluster) returns (c: Cluster)
    requires CastOk(cfg, k) && Stage13(cfg, R, c0, k)
    ensures c in R && Diverged(c, k)
  {
    var st := Standing(4, Some(k.a), [X]);
    var c1 := Append(cfg, R, c0, k.a, 4, [X], [4]);
    AllKept(c0, c1, {k.a}, k.near, st);
    AllKept(c0, c1, {k.a}, {k.p}, st);
    assert [X] + [W] == [X, W];
    Sizes(cfg, k);
    c := Settle(cfg, R, c1, k.a, 4, [X, W], k.near, st, {k.p}, st);
    assert c.servers[k.b] == c1.servers[k.b] == c0.servers[k.b];
  }

  /** Or else `p` wins term 4, */
  ghost predicate LeadsCut(c: Cluster, k: Cast) {
    && Leading(c, k.p)
    && var n := c.servers[k.p].node;
       && n.log == [X] && n.commitIndex == 2 && k.a in n.nextIndex && n.nextIndex[k.a] == 2
  }

  lemma ReachLeadsCut(cfg: Config, R: iset<Cluster>, k: Cast, c0: Cluster) returns (c: Cluster)
    requires CastOk(cfg, k) && Reached(cfg, R, c0) && c0.servers.Keys == cfg.members && Cut(c0, k)
    ensures Reached(cfg, R, c) && c.servers.Keys == cfg.members && LeadsCut(c, k)
  {
    assert k.p in {k.p};
    var c1 := Act(cfg, R, c0, StartElection(k.p));
    Sizes(cfg, k);
    forall v | v in k.near + {k.a} ensures Answer(c1, k.p, v).1.granted {
      assert v in k.near ==> Follows(c0.servers[v], 3, Some(k.a), [X]);
      assert c1.servers[v] == c0.servers[v];
      WillGrant(c1, k.p, v);
    }
    c := Win(cfg, R, c1, k.p, k.near + {k.a});
    assert k.a in cfg.members - {k.p};
  }

  /** and announces a commit index beyond its log. */
  lemma ReachAnnouncement(cfg: Config, R: iset<Cluster>, k: Cast, c0: Cluster) returns (c: Cluster, m: AppendMsg)
    requires CastOk(cfg, k) && Reached(cfg, R, c0) && c0.servers.Keys == cfg.members && LeadsCut(c0, k)
    ensures c in R && m in c.net.appends && m.req.leaderCommit == 2 && m.req.prevIndex == 1 && m.req.entries == []
  {
    c := BeginRound(cfg, R, c0, k.p);
    m := RoundMsg(cfg, c0, k.p, k.a);
    assert [X][1..] == [];
  }

  // ----- the runs -----

  lemma Beginning(cfg: Config, R: iset<Cluster>, k: Cast) returns (c: Cluster)
    requires CastOk(cfg, k) && Reached(cfg, R, Init(cfg))
    ensures Reached(cfg, R, c) && c.servers.Keys == cfg.members && Told(c, k)
  {
    c := ReachStage1(cfg, R, k);
    c := ReachStage2(cfg, R, k, c);
    c := ReachStage3(cfg, R, k, c);
    c := ReachStage4(cfg, R, k, c);
    c := ReachStage5(cfg, R, k, c);
    c := ReachStage6(cfg, R, k, c);
    c := ReachStage7(cfg, R, k, c);
    c := ReachStage8(cfg, R, k, c);
    c := ReachStage9(cfg, R, k, c);
    c := ReachStage10(cfg, R, k, c);
    c := ReachStage11(cfg, R, k, c);
    var m;
    c, m := ReachTelling(cfg, R, k, c);
    c := ReachTold(cfg, R, k, c, m);
  }

  /** Every cluster that is not steady has a prompt run after which `p` has committed Y and Z, */
  lemma ToldRun(cfg: Config) returns (run: seq<Action>, k: Cast)
    requires !Steady(cfg)
    ensures Prompt(cfg, run) && CastOk(cfg, k) && Told(After(cfg, run), k)
    ensures After(cfg, run).servers.Keys == cfg.members
  {
    k := Casting(cfg);
    var R := PromptRuns(cfg, []);
    var c := Beginning(cfg, R, k);
    var more :| Prompt(cfg, [] + more) && After(cfg, [] + more) == c;
    run := [] + more;
  }

  /** and one that goes on to cut them. */
  lemma CutRun(cfg: Config) returns (run: seq<Action>, more: seq<Action>, k: Cast)
    requires !Steady(cfg)
    ensures Prompt(cfg, run + more) && CastOk(cfg, k) && Told(After(cfg, run), k) && Cut(After(cfg, run + more), k)
    ensures After(cfg, run).servers.Keys == After(cfg, run + more).servers.Keys == cfg.members
  {
    run, k := ToldRun(cfg);
    var R := PromptRuns(cfg, run);
    var c := ReachCut(cfg, R, k, After(cfg, run));
    more :| Prompt(cfg, run + more) && After(cfg, run + more) == c;
  }

  /** After that, `p` may come to lead without them. */
  lemma LeadsCutRun(cfg: Config) returns (all: seq<Action>, k: Cast)
    requires !Steady(cfg)
    ensures Prompt(cfg, all) && CastOk(cfg, k) && LeadsCut(After(cfg, all), k)
    ensures After(cfg, all).servers.Keys == cfg.members
  {
    var run, more;
    run, more, k := CutRun(cfg);
    var R := PromptRuns(cfg, run + more);
    var c := ReachLeadsCut(cfg, R, k, After(cfg, run + more));
    var rest :| Prompt(cfg, run + more + rest) && After(cfg, run + more + rest) == c;
    all := run + more + rest;
  }

  /** Every cluster that is not steady has a prompt run with two leaders in one term, after which
      two nodes have applied different commands at index 1. */
  lemma UnsteadyRun(cfg: Config) returns (run: seq<Action>, k: Cast)
    requires !Steady(cfg)
    ensures Prompt(cfg, run) && CastOk(cfg, k) && Diverged(After(cfg, run), k)
    ensures !OneLeaderPerTerm(After(cfg, run)) && !NoDivergence(After(cfg, run))
  {
    var r, more;
    r, more, k := CutRun(cfg);
    var R := PromptRuns(cfg, r + more);
    var c := ReachStage13(cfg, R, k, After(cfg, r + more));
    c := ReachEnd(cfg, R, k, c);
    var rest :| Prompt(cfg, r + more + rest) && After(cfg, r + more + rest) == c;
    run := r + more + rest;
    assert Slot(3, k.a) != Slot(3, k.b);
    Disagree();
    assert !SameAt(c.servers[k.a].node.applied, c.servers[k.b].node.applied, 0);
  }

  lemma Disagree()
    ensures |Results([X, W], 0, 2)| == 2 && |Results([Y, Z], 0, 2)| == 2
    ensures Results([X, W], 0, 2)[0] != Results([Y, Z], 0, 2)[0]
  {
    assert Results([X, W], 0, 2) == Results([X, W], 0, 1) + [ApplyResult(true, [4], 2)];
    assert Results([Y, Z], 0, 2) == Results([Y, Z], 0, 1) + [ApplyResult(true, [3], 2)];
    assert Results([X, W], 0, 1) == [ApplyResult(true, [1], 1)];
    assert Results([Y, Z], 0, 1) == [ApplyResult(true, [2], 1)];
  }

  // ----- each guarantee, exactly -----

  /** At most one node ever led any one term. */
  ghost predicate OneLeaderPerTerm(c: Cluster) {
    UniqueLeaders(c.hist.elections)
  }

  /** Exactly the steady clusters elect at most one leader per term in every prompt run. */
  lemma OneLeaderExactlyWhenSteady(cfg: Config)
    ensures (forall run :: Prompt(cfg, run) ==> OneLeaderPerTerm(After(cfg, run))) <==> Steady(cfg)
  {
    if Steady(cfg) {
      forall run | Prompt(cfg, run) ensures OneLeaderPerTerm(After(cfg, run)) {
        SteadyIsPeaceful(cfg, run);
      }
    } else {
      var run, k := UnsteadyRun(cfg);
    }
  }

  /** No two nodes have applied different results at the same place. */
  ghost predicate NoDivergence(c: Cluster) {
    forall i, j, n :: i in c.servers && j in c.servers ==>
      SameAt(c.servers[i].node.applied, c.servers[j].node.applied, n)
  }

  predicate SameAt(a: seq<ApplyResult>, b: seq<ApplyResult>, n: int) {
    0 <= n < |a| && n < |b| ==> a[n] == b[n]
  }

  /** Exactly in the steady clusters no prompt run makes two nodes apply different commands at one index. */
  lemma SafeExactlyWhenSteady(cfg: Config)
    ensures (forall run :: Prompt(cfg, run) ==> NoDivergence(After(cfg, run))) <==> Steady(cfg)
  {
    if Steady(cfg) {
      forall run | Prompt(cfg, run) ensures NoDivergence(After(cfg, run)) {
        var c := After(cfg, run);
        Present(cfg, run);
        SteadyIsPeaceful(cfg, run);
        assert run + [] == run;
        forall i, j, n | i in c.servers && j in c.servers
          ensures SameAt(c.servers[i].node.applied, c.servers[j].node.applied, n)
        {
          if 0 <= n < |c.servers[i].node.applied| && n < |c.servers[j].node.applied| {
            AppliedOnce(cfg, run, [], i, j, n);
          }
        }
      }
    } else {
      var run, k := UnsteadyRun(cfg);
    }
  }

  /** What node i had committed after the first k actions still begins its log, and it has taken
      nothing back that it had committed or applied. */
  ghost predicate StillHolds(cfg: Config, run: seq<Action>, k: nat, i: NodeId)
    requires k <= |run|
  {
    i in After(cfg, run[..k]).servers && i in After(cfg, run).servers ==>
      Extends(NodeOf(After(cfg, run[..k]), i), NodeOf(After(cfg, run), i))
  }

  ghost predicate NothingCut(cfg: Config, run: seq<Action>) {
    forall k: nat, i :: k <= |run| && i in cfg.members ==> StillHolds(cfg, run, k, i)
  }

  /** Exactly in the steady clusters committed entries are never cut in a prompt run. */
  lemma NothingCutExactlyWhenSteady(cfg: Config)
    ensures (forall run :: Prompt(cfg, run) ==> NothingCut(cfg, run)) <==> Steady(cfg)
  {
    if Steady(cfg) {
      forall run | Prompt(cfg, run) ensures NothingCut(cfg, run) {
        SteadyIsPeaceful(cfg, run);
        forall k: nat, i | k <= |run| && i in cfg.members ensures StillHolds(cfg, run, k, i) {
          assert run[..k] + run[k..] == run;
          NeverUndone(cfg, run[..k], run[k..], i);
        }
      }
    } else {
      var run := SomethingCut(cfg);
    }
  }

  lemma SomethingCut(cfg: Config) returns (all: seq<Action>)
    requires !Steady(cfg)
    ensures Prompt(cfg, all) && !NothingCut(cfg, all)
  {
    var run, more, k := CutRun(cfg);
    all := run + more;
    assert all[..|run|] == run && k.p in {k.p};
    assert [Y, Z][..2] == [Y, Z];
    assert !StillHolds(cfg, all, |run|, k.p);
  }

  /** Every request shows the entries up to the commit index it announces. */
  ghost predicate ClampHolds(c: Cluster) {
    forall m :: m in c.net.appends ==> m.req.leaderCommit <= m.req.prevIndex + |m.req.entries|
  }

  /** Exactly in the steady clusters every request of every prompt run does. */
  lemma ClampExactlyWhenSteady(cfg: Config)
    ensures (forall run :: Prompt(cfg, run) ==> ClampHolds(After(cfg, run))) <==> Steady(cfg)
  {
    if Steady(cfg) {
      forall run | Prompt(cfg, run) ensures ClampHolds(After(cfg, run)) {
        var c := After(cfg, run);
        SteadyIsPeaceful(cfg, run);
        Present(cfg, run);
        BaseAlways(cfg, run);
        forall m | m in c.net.appends ensures m.req.leaderCommit <= m.req.prevIndex + |m.req.entries| {
          assert SentByPeer(cfg, m);
          ClampIsSound(cfg, run, m);
        }
      }
    } else {
      var run := ClampFails(cfg);
    }
  }

  lemma ClampFails(cfg: Config) returns (all: seq<Action>)
    requires !Steady(cfg)
    ensures Prompt(cfg, all) && !ClampHolds(After(cfg, all))
  {
    var run, k := LeadsCutRun(cfg);
    var R := PromptRuns(cfg, run);
    var c, m := ReachAnnouncement(cfg, R, k, After(cfg, run));
    var more :| Prompt(cfg, run + more) && After(cfg, run + more) == c;
    all := run + more;
  }

  /** A leader has the entry at its commit index. */
  ghost predicate LeadersHoldCommits(c: Cluster) {
    forall i :: i in c.servers && c.servers[i].node.role.Leader? ==>
      c.servers[i].node.commitIndex <= |c.servers[i].node.log|
  }

  /** Exactly in the steady clusters every leader of every prompt run does. */
  lemma CommitsHeldExactlyWhenSteady(cfg: Config)
    ensures (forall run :: Prompt(cfg, run) ==> LeadersHoldCommits(After(cfg, run))) <==> Steady(cfg)
  {
    if Steady(cfg) {
      forall run | Prompt(cfg, run) ensures LeadersHoldCommits(After(cfg, run)) {
        SteadyIsPeaceful(cfg, run);
        var c := After(cfg, run);
        forall i | i in c.servers ensures c.servers[i].node.commitIndex <= |c.servers[i].node.log| {
          StateMachineSafety(cfg, run, i, i);
        }
      }
    } else {
      var run, k := LeadsCutRun(cfg);
      assert !LeadersHoldCommits(After(cfg, run));
    }
  }

  /** A peer in the leader's term holds what the leader has it matching. */
  ghost predicate Matches(c: Cluster, i: NodeId, p: NodeId) {
    i in c.servers && p in c.servers && c.servers[i].node.role.Leader? && !c.servers[i].thread.Won? &&
    p in c.servers[i].node.matchIndex && c.servers[p].node.term == c.servers[i].node.term ==>
      var n := c.servers[i].node;
      n.matchIndex[p] <= |n.log| && n.log[..n.matchIndex[p]] <= c.servers[p].node.log
  }

  lemma MatchExactlyWhenSteady(cfg: Config)
    ensures (forall run, i, p :: Prompt(cfg, run) ==> Matches(After(cfg, run), i, p)) <==> Steady(cfg)
  {
    if Steady(cfg) {
      forall run, i, p | Prompt(cfg, run) ensures Matches(After(cfg, run), i, p) {
        var c := After(cfg, run);
        SteadyIsPeaceful(cfg, run);
        if i in c.servers && p in c.servers && c.servers[i].node.role.Leader? && !c.servers[i].thread.Won? &&
           p in c.servers[i].node.matchIndex && c.servers[p].node.term == c.servers[i].node.term
        {
          MatchIndexSound(cfg, run, i, p);
        }
      }
    } else {
      var run, more, k := CutRun(cfg);
      assert k.p in {k.p} && [Y, Z][..2] == [Y, Z];
      assert !Matches(After(cfg, run + more), k.b, k.p);
    }
  }

  /** What node i had committed after the first k actions is in the log of node j, if that now
      leads a higher term. */
  ghost predicate LeaderHolds(cfg: Config, run: seq<Action>, k: nat, i: NodeId, j: NodeId)
    requires k <= |run|
  {
    i in After(cfg, run[..k]).servers && j in After(cfg, run).servers && NodeOf(After(cfg, run), j).role.Leader? &&
    NodeOf(After(cfg, run[..k]), i).term < NodeOf(After(cfg, run), j).term ==>
      CommittedLog(After(cfg, run[..k]), i) <= NodeOf(After(cfg, run), j).log
  }

  lemma CompleteExactlyWhenSteady(cfg: Config)
    ensures (forall run, k: nat, i, j :: Prompt(cfg, run) && k <= |run| ==>
      LeaderHolds(cfg, run, k, i, j)) <==> Steady(cfg)
  {
    if Steady(cfg) {
      forall run, k: nat, i, j | Prompt(cfg, run) && k <= |run| ensures LeaderHolds(cfg, run, k, i, j) {
        SteadyIsPeaceful(cfg, run);
        assert run[..k] + run[k..] == run;
        if i in After(cfg, run[..k]).servers && j in After(cfg, run).servers &&
           NodeOf(After(cfg, run), j).role.Leader? &&
           NodeOf(After(cfg, run[..k]), i).term < NodeOf(After(cfg, run), j).term
        {
          LeadersHoldCommitted(cfg, run[..k], run[k..], i, j);
        }
      }
    } else {
      var run, k := UnsteadyRun(cfg);
      assert run[..|run|] == run && [Y, Z][..2] == [Y, Z];
      assert !LeaderHolds(cfg, run, |run|, k.b, k.a);
    }
  }
}
