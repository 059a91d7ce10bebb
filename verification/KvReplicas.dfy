/** Key-value servers on top of Raft: every replica computes the same machine from the same log,
    a read under the lease returns committed data, and a success holds at every replica. */
module KvReplicas {
  import opened RaftTypes
  import opened RaftSteps
  import opened Cluster
  import opened ElectionSafety
  import opened AnyRun
  import opened RaftTheorems
  import opened Validity
  import opened KvCodec
  import opened KvMachine
  import opened KvService

  /** The results that node i has handed over. */
  ghost function AppliedAt(cfg: Config, run: seq<Action>, i: NodeId): seq<ApplyResult>
    requires i in After(cfg, run).servers
  {
    NodeOf(After(cfg, run), i).applied
  }

  lemma {:induction false} ResultsNumbered(log: Log, n: nat)
    requires n <= |log|
    ensures |Results(log, 0, n)| == n && Numbered(Results(log, 0, n))
    ensures Commands(Results(log, 0, n)) == CommandsOf(log[..n])
  {
    if n > 0 {
      ResultsNumbered(log, n - 1);
      assert log[..n] == log[..n - 1] + [log[n - 1]];
    }
  }

  function CommandsOf(log: Log): (cmds: seq<Bytes>)
    ensures |cmds| == |log| && forall k :: 0 <= k < |cmds| ==> cmds[k] == log[k].command
  {
    seq(|log|, k requires 0 <= k < |log| => log[k].command)
  }

  /** What a node hands over are the commands of its committed log, numbered. */
  lemma HandsOverCommitted(cfg: Config, run: seq<Action>, i: NodeId)
    requires Peaceful(cfg, run) && i in After(cfg, run).servers
    ensures Numbered(AppliedAt(cfg, run, i))
    ensures Commands(AppliedAt(cfg, run, i)) == CommandsOf(CommittedLog(After(cfg, run), i))
  {
    StateMachineSafety(cfg, run, i, i);
    var n := NodeOf(After(cfg, run), i);
    ResultsNumbered(n.log, n.commitIndex);
  }

  /** Two nodes, at one time or at two, hand over the same commands as far as both have come. */
  lemma CommandsAgree(cfg: Config, run: seq<Action>, more: seq<Action>, i: NodeId, j: NodeId, n: nat)
    requires Peaceful(cfg, run + more) && i in cfg.members && j in cfg.members
    requires i in After(cfg, run).servers && j in After(cfg, run + more).servers
    requires n <= |AppliedAt(cfg, run, i)| && n <= |AppliedAt(cfg, run + more, j)|
    ensures Commands(AppliedAt(cfg, run, i))[..n] == Commands(AppliedAt(cfg, run + more, j))[..n]
  {
    var a, b := AppliedAt(cfg, run, i), AppliedAt(cfg, run + more, j);
    forall k | 0 <= k < n ensures Commands(a)[k] == Commands(b)[k] {
      AppliedOnce(cfg, run, more, i, j, k);
    }
  }

  /** Replica agreement: servers that have taken the same number of results, at any two nodes and
      any two times, whatever requests came and went, hold the same store and table. */
  lemma ReplicasAgree(cfg: Config, run: seq<Action>, more: seq<Action>, i: NodeId, j: NodeId,
                      atI: seq<Event>, atJ: seq<Event>)
    requires Peaceful(cfg, run + more) && i in cfg.members && j in cfg.members
    requires i in After(cfg, run).servers && j in After(cfg, run + more).servers
    requires Serve(AppliedAt(cfg, run, i), atI).position == Serve(AppliedAt(cfg, run + more, j), atJ).position
    ensures Serve(AppliedAt(cfg, run, i), atI).server.machine ==
            Serve(AppliedAt(cfg, run + more, j), atJ).server.machine
  {
    PeacefulBefore(cfg, run, more);
    HandsOverCommitted(cfg, run, i);
    HandsOverCommitted(cfg, run + more, j);
    ServiceAlways(AppliedAt(cfg, run, i), atI);
    ServiceAlways(AppliedAt(cfg, run + more, j), atJ);
    CommandsAgree(cfg, run, more, i, j, Serve(AppliedAt(cfg, run, i), atI).position);
  }

  /** Reads are of committed data: what a server reads from its store is the value after some
      prefix of its node's committed log, and of that of every node that has committed as much. */
  lemma ReadsCommitted(cfg: Config, run: seq<Action>, i: NodeId, j: NodeId, events: seq<Event>, key: Bytes)
    requires Peaceful(cfg, run) && i in After(cfg, run).servers && j in After(cfg, run).servers
    requires Serve(AppliedAt(cfg, run, i), events).position <= |CommittedLog(After(cfg, run), j)|
    ensures var x := Serve(AppliedAt(cfg, run, i), events);
      var cmds := CommandsOf(CommittedLog(After(cfg, run), j)[..x.position]);
      && Lookup(x.server.machine.store, key) == Lookup(Replay(cmds).store, key)
      && Holds(Effective(cmds), key, Lookup(x.server.machine.store, key))
  {
    var x := Serve(AppliedAt(cfg, run, i), events);
    var a, b := CommittedLog(After(cfg, run), i), CommittedLog(After(cfg, run), j);
    HandsOverCommitted(cfg, run, i);
    ServiceAlways(AppliedAt(cfg, run, i), events);
    StateMachineSafety(cfg, run, i, j);
    StateMachineSafety(cfg, run, j, i);
    assert x.position <= |a|;
    assert a[..x.position] == b[..x.position];
    assert CommandsOf(a)[..x.position] == CommandsOf(a[..x.position]);
    LookupExactly(CommandsOf(b[..x.position]), key, Lookup(x.server.machine.store, key));
  }

  /** Command f of node j is the waiter's operation, executes there, and what the waiter was told
      is the right reply to it, if the node has come as far as the waiter's index. */
  ghost predicate ExecutedAt(cfg: Config, run: seq<Action>, j: NodeId, f: int, a: Answered) {
    j in After(cfg, run).servers && a.index <= |AppliedAt(cfg, run, j)| ==>
      var cmds := Commands(AppliedAt(cfg, run, j));
      && 0 <= f < a.index && Executes(cmds, f) && WaitsFor(a.waiter, cmds[f])
      && RightReply(cmds, f, a.reply)
  }

  lemma SuccessAtNode(cfg: Config, run: seq<Action>, more: seq<Action>, i: NodeId, j: NodeId, a: Answered, f: int)
    requires Peaceful(cfg, run + more) && i in cfg.members && j in cfg.members && i in After(cfg, run).servers
    requires a.index <= |AppliedAt(cfg, run, i)| && ExecutedAt(cfg, run, i, f, a)
    ensures ExecutedAt(cfg, run + more, j, f, a)
  {
    if j in After(cfg, run + more).servers && a.index <= |AppliedAt(cfg, run + more, j)| {
      var mine, theirs := Commands(AppliedAt(cfg, run, i)), Commands(AppliedAt(cfg, run + more, j));
      CommandsAgree(cfg, run, more, i, j, a.index);
      PrefixExecutes(mine, a.index, f);
      PrefixExecutes(theirs, a.index, f);
      assert mine[..f] == mine[..a.index][..f] == theirs[..f];
    }
  }

  /** A success holds everywhere and for good: the operation that a request was told had succeeded
      (and no later one of its client had overtaken) executes at one and the same position of every
      node that ever comes as far, with the answer that the request was told. */
  lemma SuccessEverywhere(cfg: Config, run: seq<Action>, i: NodeId, events: seq<Event>, a: Answered) returns (f: int)
    requires Peaceful(cfg, run) && i in cfg.members && i in After(cfg, run).servers
    requires a in Serve(AppliedAt(cfg, run, i), events).answers && a.reply.status.Success?
    requires IsRecord(Commands(AppliedAt(cfg, run, i)), a.index - 1) ==>
               !Overtaken(Commands(AppliedAt(cfg, run, i)), a.index - 1)
    ensures forall more, j {:trigger ExecutedAt(cfg, run + more, j, f, a)} ::
      Peaceful(cfg, run + more) && j in cfg.members ==> ExecutedAt(cfg, run + more, j, f, a)
    ensures ExecutedAt(cfg, run, i, f, a) && a.index <= |AppliedAt(cfg, run, i)|
  {
    var mine := Commands(AppliedAt(cfg, run, i));
    HandsOverCommitted(cfg, run, i);
    ServiceAlways(AppliedAt(cfg, run, i), events);
    assert AnswerOk(mine, a);
    f := SuccessMeansExecuted(mine, a);
    forall more, j {:trigger ExecutedAt(cfg, run + more, j, f, a)} | Peaceful(cfg, run + more) && j in cfg.members
      ensures ExecutedAt(cfg, run + more, j, f, a)
    {
      SuccessAtNode(cfg, run, more, i, j, a, f);
    }
  }

  /** A command of the waiter's client with a larger sequence number. */
  predicate IsLater(data: Bytes, w: Waiter) {
    match Decode(data)
    case None => false
    case Some(r) => r.client == w.client && r.seqNum > w.seqNum
  }

  lemma HandedOverWasProposed(cfg: Config, run: seq<Action>, i: NodeId, k: nat)
    requires Peaceful(cfg, run) && i in After(cfg, run).servers && k < |AppliedAt(cfg, run, i)|
    ensures Commands(AppliedAt(cfg, run, i))[k] in ProposedIn(run)
  {
    HandsOverCommitted(cfg, run, i);
    StateMachineSafety(cfg, run, i, i);
    OnlyProposed(cfg, run);
    var c := After(cfg, run);
    assert AllFrom(ProposedIn(run), c.servers[i].node.log);
    assert CommittedLog(c, i)[k] == c.servers[i].node.log[k];
  }

  lemma NoneLater(cmds: seq<Bytes>, a: Answered)
    requires AnswerOk(cmds, a) && a.reply.status.Success?
    requires forall k :: 0 <= k < a.index - 1 ==> !IsLater(cmds[k], a.waiter)
    ensures !Overtaken(cmds, a.index - 1)
  {
    forall k | 0 <= k < a.index - 1 && IsRecord(cmds, k) ensures !Overtakes(cmds, k, a.index - 1) {
      assert !IsLater(cmds[k], a.waiter);
    }
  }

  /** A client that waits: as long as a client has not proposed a later operation, nothing has
      overtaken the operation it is told had succeeded. */
  lemma WaitingIsEnough(cfg: Config, run: seq<Action>, i: NodeId, a: Answered)
    requires Peaceful(cfg, run) && i in After(cfg, run).servers
    requires AnswerOk(Commands(AppliedAt(cfg, run, i)), a) && a.reply.status.Success?
    requires forall d :: d in ProposedIn(run) ==> !IsLater(d, a.waiter)
    ensures !Overtaken(Commands(AppliedAt(cfg, run, i)), a.index - 1)
  {
    var cmds := Commands(AppliedAt(cfg, run, i));
    forall k | 0 <= k < a.index - 1 ensures !IsLater(cmds[k], a.waiter) {
      HandedOverWasProposed(cfg, run, i, k);
    }
    NoneLater(cmds, a);
  }

  /** End to end, for a client that waits for one operation before it proposes the next: the
      operation it is told had succeeded executes at one position of every node that ever comes as
      far, with the answer it was told. */
  lemma ClientSuccess(cfg: Config, run: seq<Action>, i: NodeId, events: seq<Event>, a: Answered) returns (f: int)
    requires Peaceful(cfg, run) && i in cfg.members && i in After(cfg, run).servers
    requires a in Serve(AppliedAt(cfg, run, i), events).answers && a.reply.status.Success?
    requires forall d :: d in ProposedIn(run) ==> !IsLater(d, a.waiter)
    ensures forall more, j {:trigger ExecutedAt(cfg, run + more, j, f, a)} ::
      Peaceful(cfg, run + more) && j in cfg.members ==> ExecutedAt(cfg, run + more, j, f, a)
    ensures ExecutedAt(cfg, run, i, f, a) && a.index <= |AppliedAt(cfg, run, i)|
  {
    HandsOverCommitted(cfg, run, i);
    ServiceAlways(AppliedAt(cfg, run, i), events);
    WaitingIsEnough(cfg, run, i, a);
    f := SuccessEverywhere(cfg, run, i, events, a);
  }

  // ----- clients that wait for success -----

  /** Some node has applied the operation. */
  ghost predicate AppliedSomewhere(cfg: Config, run: seq<Action>, w: Waiter) {
    exists j, q :: j in After(cfg, run).servers && 0 <= q < |AppliedAt(cfg, run, j)| &&
                   WaitsFor(w, Commands(AppliedAt(cfg, run, j))[q])
  }

  /** Of two operations that a client has proposed after `run`, the one with the smaller sequence
      number has been applied: the client was told of its success. The larger one may be the new
      proposal, or the smaller one, which then is a retry that comes late. */
  ghost predicate InTurnAfter(cfg: Config, run: seq<Action>, data: Bytes, other: Bytes) {
    match (Decode(data), Decode(other))
    case (Some(r), Some(r0)) =>
      r0.client == r.client ==>
        && (r0.seqNum < r.seqNum ==> AppliedSomewhere(cfg, run, Waiter(r0.client, r0.seqNum)))
        && (r0.seqNum > r.seqNum ==> AppliedSomewhere(cfg, run, Waiter(r.client, r.seqNum)))
    case _ => true
  }

  ghost predicate PatientAt(cfg: Config, run: seq<Action>, n: int)
    requires 0 <= n < |run|
  {
    run[n].ProposeCommand? ==>
      forall d :: d in ProposedIn(run[..n]) ==> InTurnAfter(cfg, run[..n], run[n].command, d)
  }

  /** Every client goes on to its next operation only after a success that a server told it when it
      applied the operation, however many retries it makes and however late they come. The success
      of a read that a leader answers from its store is none: nothing has then been applied. */
  ghost predicate Patient(cfg: Config, run: seq<Action>) {
    forall n :: 0 <= n < |run| ==> PatientAt(cfg, run, n)
  }

  lemma FirstProposal(run: seq<Action>, w: Waiter, d: Bytes) returns (n: nat)
    requires d in ProposedIn(run) && WaitsFor(w, d)
    ensures n < |run| && run[n].ProposeCommand? && WaitsFor(w, run[n].command)
    ensures forall e :: e in ProposedIn(run[..n]) ==> !WaitsFor(w, e)
    decreases |run|
  {
    var m :| 0 <= m < |run| && run[m].ProposeCommand? && run[m].command == d;
    if e :| e in ProposedIn(run[..m]) && WaitsFor(w, e) {
      n := FirstProposal(run[..m], w, e);
      assert run[..m][..n] == run[..n];
    } else {
      n := m;
    }
  }

  /** What has been applied before an operation was first proposed does not contain it. */
  lemma NotYetApplied(cfg: Config, run: seq<Action>, n: nat, i: NodeId, j: NodeId, w: Waiter, y: nat)
    requires Peaceful(cfg, run) && n <= |run| && i in cfg.members && j in cfg.members
    requires i in After(cfg, run).servers && j in After(cfg, run[..n]).servers
    requires forall e :: e in ProposedIn(run[..n]) ==> !WaitsFor(w, e)
    requires y < |AppliedAt(cfg, run, i)| && WaitsFor(w, Commands(AppliedAt(cfg, run, i))[y])
    ensures |AppliedAt(cfg, run[..n], j)| <= y
    ensures forall q :: 0 <= q < |AppliedAt(cfg, run[..n], j)| ==>
      Commands(AppliedAt(cfg, run[..n], j))[q] == Commands(AppliedAt(cfg, run, i))[q]
  {
    var before, now := Commands(AppliedAt(cfg, run[..n], j)), Commands(AppliedAt(cfg, run, i));
    assert run[..n] + run[n..] == run;
    PeacefulBefore(cfg, run[..n], run[n..]);
    var both := Min(|before|, |now|);
    CommandsAgree(cfg, run[..n], run[n..], j, i, both);
    assert forall q :: 0 <= q < both ==> before[q] == before[..both][q] == now[..both][q] == now[q];
    if y < |before| {
      HandedOverWasProposed(cfg, run[..n], j, y);
    }
  }

  /** A patient client's later operation comes after its earlier one. */
  lemma NotOvertaken(cfg: Config, run: seq<Action>, i: NodeId, y: int, x: int)
    requires Peaceful(cfg, run) && Patient(cfg, run) && i in cfg.members && i in After(cfg, run).servers
    requires var cmds := Commands(AppliedAt(cfg, run, i));
      0 <= y < x && IsRecord(cmds, y) && First(cmds, x)
    ensures !Overtakes(Commands(AppliedAt(cfg, run, i)), y, x)
  {
    var cmds := Commands(AppliedAt(cfg, run, i));
    if Overtakes(cmds, y, x) {
      var wy := OperationOf(cmds[y]);
      HandedOverWasProposed(cfg, run, i, y);
      HandedOverWasProposed(cfg, run, i, x);
      var n := FirstProposal(run, wy, cmds[y]);
      var j, q := AppliedEarlier(cfg, run, n, cmds[y], cmds[x]);
      Present(cfg, run[..n]);
      NotYetApplied(cfg, run, n, i, j, wy, y);
      assert SameOperation(cmds, q, x);
      assert false;
    }
  }

  function OperationOf(data: Bytes): (w: Waiter)
    requires Decode(data).Some?
    ensures WaitsFor(w, data)
  {
    Waiter(Decode(data).value.client, Decode(data).value.seqNum)
  }

  /** What has not been proposed has not been applied. */
  lemma NotAppliedUnproposed(cfg: Config, run: seq<Action>, w: Waiter)
    requires Peaceful(cfg, run) && forall e :: e in ProposedIn(run) ==> !WaitsFor(w, e)
    ensures !AppliedSomewhere(cfg, run, w)
  {
    if j, q :| j in After(cfg, run).servers && 0 <= q < |AppliedAt(cfg, run, j)| &&
               WaitsFor(w, Commands(AppliedAt(cfg, run, j))[q])
    {
      HandedOverWasProposed(cfg, run, j, q);
      assert false;
    }
  }

  /** A patient client does not first propose an operation after a later one. */
  lemma ProposedInOrder(cfg: Config, run: seq<Action>, n: nat, m: nat, w: Waiter)
    requires Peaceful(cfg, run) && n < m < |run| && PatientAt(cfg, run, m)
    requires run[n].ProposeCommand? && run[m].ProposeCommand? && WaitsFor(w, run[m].command)
    requires forall e :: e in ProposedIn(run[..m]) ==> !WaitsFor(w, e)
    ensures !IsLater(run[n].command, w)
  {
    assert run[..m] + run[m..] == run;
    PeacefulBefore(cfg, run[..m], run[m..]);
    NotAppliedUnproposed(cfg, run[..m], w);
    assert run[..m][n] == run[n];
    assert InTurnAfter(cfg, run[..m], run[m].command, run[n].command);
  }

  /** Where the earlier operation had been applied when the later one was first proposed. */
  lemma AppliedEarlier(cfg: Config, run: seq<Action>, n: nat, later: Bytes, earlier: Bytes) returns (j: NodeId, q: nat)
    requires Peaceful(cfg, run) && Patient(cfg, run)
    requires n < |run| && run[n].ProposeCommand? && earlier in ProposedIn(run)
    requires Decode(later).Some? && Decode(earlier).Some? && IsLater(later, OperationOf(earlier))
    requires WaitsFor(OperationOf(later), run[n].command)
    ensures j in After(cfg, run[..n]).servers && q < |AppliedAt(cfg, run[..n], j)|
    ensures WaitsFor(OperationOf(earlier), Commands(AppliedAt(cfg, run[..n], j))[q])
  {
    var m := FirstProposal(run, OperationOf(earlier), earlier);
    assert PatientAt(cfg, run, m) && PatientAt(cfg, run, n);
    if n < m {
      ProposedInOrder(cfg, run, n, m, OperationOf(earlier));
      assert false;
    }
    assert run[..n][m] == run[m];
    assert InTurnAfter(cfg, run[..n], run[n].command, run[m].command);
    j, q :| j in After(cfg, run[..n]).servers && 0 <= q < |AppliedAt(cfg, run[..n], j)| &&
            WaitsFor(OperationOf(earlier), Commands(AppliedAt(cfg, run[..n], j))[q]);
  }

  /** Exactly once, end to end: if every client waits for success before its next operation, then
      at every node each operation has executed exactly once, at its first command, and the store
      is what executing every operation once would make it, however many retries the log holds. */
  lemma PatientIsExactlyOnce(cfg: Config, run: seq<Action>, i: NodeId)
    requires Peaceful(cfg, run) && Patient(cfg, run) && i in cfg.members && i in After(cfg, run).servers
    ensures var cmds := Commands(AppliedAt(cfg, run, i));
      && InOrder(cmds) && (forall k :: Executes(cmds, k) <==> First(cmds, k))
      && Replay(cmds).store == Plain(Firsts(cmds))
  {
    var cmds := Commands(AppliedAt(cfg, run, i));
    forall x, y | 0 <= y < x && First(cmds, y) && First(cmds, x) ensures !Overtakes(cmds, y, x) {
      NotOvertaken(cfg, run, i, y, x);
    }
    ExactlyOnce(cmds);
    RetriesDoNotShow(cmds);
  }
}
