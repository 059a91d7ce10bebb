/** A whole cluster: its nodes, the messages between them, and the history of a run.

    Messages are never removed, so a request may be handled late, repeatedly or never,
    and a reply may be lost; a reply is always paired with its own request. Timers and
    failures are the choice of the next action. Nodes do not restart. */
module Cluster {
  import opened RaftTypes
  import opened RaftSteps

  /** The nodes, all configured with each other as peers; and whether a node that steps
      down for lack of a majority keeps its vote (false: as the program does it). */
  datatype Config = Config(members: set<NodeId>, keepVote: bool)

  function Quorum(cfg: Config): nat { Majority(|cfg.members|) }

  // ----- messages; `log` fields are history: the sender's log at the time; so is `since`, the
  // term of the candidacy in which a vote request was sent -----

  datatype VoteMsg = VoteMsg(to: NodeId, req: VoteRequest, since: Term)
  datatype VoteReplyMsg = VoteReplyMsg(msg: VoteMsg, reply: VoteReply, log: Log)
  datatype AppendMsg = AppendMsg(to: NodeId, req: AppendRequest, log: Log)
  datatype AppendReplyMsg = AppendReplyMsg(msg: AppendMsg, reply: AppendReply)

  datatype Network = Network(
    votes: set<VoteMsg>, voteReplies: set<VoteReplyMsg>,
    appends: set<AppendMsg>, appendReplies: set<AppendReplyMsg>)

  // ----- nodes -----

  /** Where the node's own thread stands between critical sections:
      - Campaign: asking for votes since it became candidate in term `since` with log `began`;
        `votes` holds the peers counted so far, with their logs when they voted; `newer` is the
        larger term that a reply has shown and that the node is about to adopt;
      - Won: leader, but the replication indices are not yet set;
      - Round: a heartbeat round of `term` is under way; `sent` went out with log `began`. */
  datatype Thread =
    | Idle
    | Campaign(since: Term, began: Log, votes: map<NodeId, Log>, newer: Option<Term>)
    | Won
    | Round(term: Term, began: Log, sent: set<AppendMsg>)

  datatype Server = Server(node: NodeState, thread: Thread)

  // ----- history: written by the actions, never read by them -----

  /** `voter`, whose log was `log`, voted for `candidate` in `term`. */
  datatype Ballot = Ballot(voter: NodeId, term: Term, candidate: NodeId, log: Log)

  datatype Slot = Slot(term: Term, leader: NodeId)

  /** A won election: how many were won before it, the winner's log, and the logs of its voters. */
  datatype Election = Election(order: nat, startLog: Log, voterLogs: map<NodeId, Log>)

  /** Who created the entries of a term, and that leader's latest log in the term. */
  datatype TermLog = TermLog(creator: NodeId, log: Log)

  /** `node` confirmed to the leader of `slot` that it stores `log`. */
  datatype Ack = Ack(node: NodeId, slot: Slot, log: Log)

  /** The leader of `slot` advanced its commit index to the end of `log`, counting `quorum`. */
  datatype Commit = Commit(slot: Slot, log: Log, quorum: set<NodeId>)

  datatype History = History(
    ballots: set<Ballot>, elections: map<Slot, Election>, termLogs: map<Term, TermLog>,
    acks: set<Ack>, commits: set<Commit>)

  datatype Cluster = Cluster(servers: map<NodeId, Server>, net: Network, hist: History)

  ghost function Init(cfg: Config): Cluster {
    Cluster(map i | i in cfg.members :: Server(INITIAL_NODE, Idle),
            Network({}, {}, {}, {}), History({}, map[], map[], {}, {}))
  }

  // ----- actions -----

  datatype Action =
    | StartElection(id: NodeId)
    | AskVote(id: NodeId, to: NodeId, req: VoteRequest)
    | HandleVote(vote: VoteMsg)
    | CountVote(id: NodeId, answer: VoteReplyMsg)
    | Adopt(id: NodeId)
    | EndElection(id: NodeId)
    | SetIndices(id: NodeId)
    | StartRound(id: NodeId)
    | HandleAppend(append: AppendMsg)
    | EndRound(id: NodeId, answers: seq<AppendReplyMsg>, timedOut: bool)
    | ProposeCommand(id: NodeId, command: Bytes)

  /** The node at which an action takes place. */
  function Actor(a: Action): NodeId {
    match a
    case HandleVote(m) => m.to
    case HandleAppend(m) => m.to
    case _ => a.id
  }

  ghost predicate Enabled(cfg: Config, c: Cluster, a: Action) {
    && Actor(a) in cfg.members && Actor(a) in c.servers
    && var s := c.servers[Actor(a)];
       match a
       case StartElection(_) => s.thread.Idle? && !s.node.role.Leader?
       case AskVote(i, to, req) => Asking(s.thread) && to in cfg.members && to != i && MayAsk(s, i, req)
       case HandleVote(m) => m in c.net.votes
       case CountVote(i, r) =>
         && Asking(s.thread) && r in c.net.voteReplies && r.msg.req.candidate == i
         && r.msg.since == s.thread.since && r.msg.to !in s.thread.votes
       case Adopt(_) => s.thread.Campaign? && s.thread.newer.Some?
       case EndElection(_) => Asking(s.thread)
       case SetIndices(_) => s.thread.Won?
       case StartRound(_) => s.thread.Idle? && s.node.role.Leader?
       case HandleAppend(m) => m in c.net.appends
       case EndRound(_, rs, _) => s.thread.Round? && AnswersTo(c, s.thread.sent, rs)
       case ProposeCommand(_, _) => true
  }

  predicate Asking(t: Thread) {
    t.Campaign? && t.newer.None?
  }

  /** The request is built without the lock. While the node is still candidate it shows the
      candidate's term and log; once it is not, the fields may come from different moments. */
  ghost predicate MayAsk(s: Server, i: NodeId, req: VoteRequest)
    requires s.thread.Campaign?
  {
    && req.candidate == i
    && if s.node.role.Candidate? then req == BuildVoteRequest(s.node, i)
       else s.thread.since <= req.term <= s.node.term
  }

  /** The replies that arrived in time, at most one per request of the round. */
  ghost predicate AnswersTo(c: Cluster, sent: set<AppendMsg>, rs: seq<AppendReplyMsg>) {
    && (forall k :: 0 <= k < |rs| ==> rs[k] in c.net.appendReplies && rs[k].msg in sent)
    && (forall j, k :: 0 <= j < k < |rs| ==> rs[j].msg.to != rs[k].msg.to)
  }

  function ResultOf(r: AppendReplyMsg): RpcResult {
    RpcResult(r.msg.to, r.msg.req.prevIndex, |r.msg.req.entries|, Some(r.reply))
  }

  function ResultsOf(rs: seq<AppendReplyMsg>): (out: seq<RpcResult>)
    ensures |out| == |rs|
    ensures forall k :: 0 <= k < |rs| ==> out[k] == ResultOf(rs[k])
  {
    seq(|rs|, k requires 0 <= k < |rs| => ResultOf(rs[k]))
  }

  ghost function Do(cfg: Config, c: Cluster, a: Action): Cluster
    requires Enabled(cfg, c, a)
  {
    match a
    case StartElection(i) => DoStartElection(c, i)
    case AskVote(i, to, req) =>
      c.(net := c.net.(votes := c.net.votes + {VoteMsg(to, req, c.servers[i].thread.since)}))
    case HandleVote(m) => DoHandleVote(c, m)
    case CountVote(i, r) => DoCountVote(c, i, r)
    case Adopt(i) => DoAdopt(c, i)
    case EndElection(i) => DoEndElection(cfg, c, i)
    case SetIndices(i) =>
      var s := c.servers[i];
      c.(servers := c.servers[i := Server(InitLeader(s.node, cfg.members - {i}), Idle)])
    case StartRound(i) => DoStartRound(cfg, c, i)
    case HandleAppend(m) => DoHandleAppend(c, m)
    case EndRound(i, rs, timedOut) => DoEndRound(cfg, c, i, rs, timedOut)
    case ProposeCommand(i, command) => DoPropose(c, i, command)
  }

  ghost function DoStartElection(c: Cluster, i: NodeId): Cluster
    requires i in c.servers
  {
    var n := BeginCandidacy(c.servers[i].node, i);
    c.(servers := c.servers[i := Server(n, Campaign(n.term, n.log, map[], None))],
       hist := c.hist.(ballots := c.hist.ballots + {Ballot(i, n.term, i, n.log)}))
  }

  ghost function DoHandleVote(c: Cluster, m: VoteMsg): Cluster
    requires m.to in c.servers
  {
    var s := c.servers[m.to];
    var (n, reply) := HandleRequestVote(s.node, m.req);
    var cast := if reply.granted then {Ballot(m.to, m.req.term, m.req.candidate, s.node.log)} else {};
    c.(servers := c.servers[m.to := s.(node := n)],
       net := c.net.(voteReplies := c.net.voteReplies + {VoteReplyMsg(m, reply, s.node.log)}),
       hist := c.hist.(ballots := c.hist.ballots + cast))
  }

  /** The reply's term is compared under the lock; a newer one is adopted in a later step. */
  ghost function DoCountVote(c: Cluster, i: NodeId, r: VoteReplyMsg): Cluster
    requires i in c.servers && c.servers[i].thread.Campaign?
  {
    var s := c.servers[i];
    var t :=
      if r.reply.term > s.node.term then s.thread.(newer := Some(r.reply.term))
      else if r.reply.granted then s.thread.(votes := s.thread.votes[r.msg.to := r.log])
      else s.thread;
    c.(servers := c.servers[i := s.(thread := t)])
  }

  /** The term is adopted, whatever has become of the node's own; that ends the candidacy. */
  ghost function DoAdopt(c: Cluster, i: NodeId): Cluster
    requires i in c.servers && c.servers[i].thread.Campaign? && c.servers[i].thread.newer.Some?
  {
    var s := c.servers[i];
    c.(servers := c.servers[i := Server(AdoptTerm(s.node, s.thread.newer.value), Idle)])
  }

  ghost function DoEndElection(cfg: Config, c: Cluster, i: NodeId): Cluster
    requires i in c.servers && c.servers[i].thread.Campaign?
  {
    var s := c.servers[i];
    var n := ConcludeElection(s.node, 1 + |s.thread.votes|, Quorum(cfg));
    if n.role.Leader? then
      var e := Election(|c.hist.elections|, n.log, s.thread.votes[i := n.log]);
      c.(servers := c.servers[i := Server(n, Won)],
         hist := c.hist.(elections := c.hist.elections[Slot(n.term, i) := e]))
    else c.(servers := c.servers[i := Server(n, Idle)])
  }

  function RoundRequests(cfg: Config, n: NodeState, i: NodeId): set<AppendMsg> {
    set p | p in cfg.members - {i} :: AppendMsg(p, BuildAppend(n, i, p), n.log)
  }

  ghost function DoStartRound(cfg: Config, c: Cluster, i: NodeId): Cluster
    requires i in c.servers
  {
    var n := FillNextIndex(c.servers[i].node, cfg.members - {i});
    var sent := RoundRequests(cfg, n, i);
    c.(servers := c.servers[i := Server(n, Round(n.term, n.log, sent))],
       net := c.net.(appends := c.net.appends + sent))
  }

  ghost function DoHandleAppend(c: Cluster, m: AppendMsg): Cluster
    requires m.to in c.servers
  {
    var s := c.servers[m.to];
    var (n, reply) := HandleAppendEntries(s.node, m.req);
    var stored := if reply.success then {Ack(m.to, Slot(m.req.term, m.req.leader), m.log)} else {};
    c.(servers := c.servers[m.to := s.(node := n)],
       net := c.net.(appendReplies := c.net.appendReplies + {AppendReplyMsg(m, reply)}),
       hist := c.hist.(acks := c.hist.acks + stored))
  }

  /** The commit index reached by the end of a round is recorded when it moved. */
  ghost function NewCommits(n: NodeState, i: NodeId, before: nat): set<Commit> {
    if before < n.commitIndex <= |n.log|
    then {Commit(Slot(n.term, i), n.log[..n.commitIndex], Matching(n.matchIndex, n.commitIndex) + {i})}
    else {}
  }

  ghost function DoEndRound(cfg: Config, c: Cluster, i: NodeId, rs: seq<AppendReplyMsg>, timedOut: bool): Cluster
    requires i in c.servers
  {
    var s := c.servers[i];
    var n := FinishRound(s.node, ResultsOf(rs), Quorum(cfg), timedOut, cfg.keepVote);
    c.(servers := c.servers[i := Server(n, Idle)],
       hist := c.hist.(commits := c.hist.commits + NewCommits(n, i, s.node.commitIndex)))
  }

  ghost function DoPropose(c: Cluster, i: NodeId, command: Bytes): Cluster
    requires i in c.servers
  {
    var s := c.servers[i];
    var n := Propose(s.node, command);
    if s.node.role.Leader? then
      c.(servers := c.servers[i := s.(node := n)],
         hist := c.hist.(termLogs := c.hist.termLogs[n.term := TermLog(i, n.log)],
                         acks := c.hist.acks + {Ack(i, Slot(n.term, i), n.log)}))
    else c
  }

  /** An action changes no other node. */
  lemma OthersStay(cfg: Config, c: Cluster, a: Action, i: NodeId)
    requires Enabled(cfg, c, a) && i in Do(cfg, c, a).servers && i != Actor(a)
    ensures i in c.servers && Do(cfg, c, a).servers[i] == c.servers[i]
  {
  }

  // ----- runs -----

  /** An action that is not enabled changes nothing. */
  ghost function Step(cfg: Config, c: Cluster, a: Action): Cluster {
    if Enabled(cfg, c, a) then Do(cfg, c, a) else c
  }

  /** Adopting `term` makes the node neither lower its term nor drop a vote it has cast in it. */
  predicate OnTime(n: NodeState, term: Term) {
    term > n.term || (term == n.term && n.votedFor.None?)
  }

  ghost predicate Timely(c: Cluster, a: Action) {
    a.Adopt? && a.id in c.servers && c.servers[a.id].thread.Campaign? && c.servers[a.id].thread.newer.Some? ==>
      OnTime(c.servers[a.id].node, c.servers[a.id].thread.newer.value)
  }

  /** The cluster after any sequence of actions. */
  ghost function After(cfg: Config, run: seq<Action>): Cluster
    decreases |run|
  {
    if run == [] then Init(cfg) else Step(cfg, After(cfg, run[..|run| - 1]), run[|run| - 1])
  }

  /** A run in which every newer term was adopted on time. */
  ghost predicate Prompt(cfg: Config, run: seq<Action>)
    decreases |run|
  {
    run == [] || (Prompt(cfg, run[..|run| - 1]) && Timely(After(cfg, run[..|run| - 1]), run[|run| - 1]))
  }

  lemma {:induction false} PromptBefore(cfg: Config, run: seq<Action>, more: seq<Action>)
    requires Prompt(cfg, run + more)
    ensures Prompt(cfg, run)
    decreases |more|
  {
    if more == [] {
      assert run + more == run;
    } else {
      assert (run + more)[..|run + more| - 1] == run + more[..|more| - 1];
      PromptBefore(cfg, run, more[..|more| - 1]);
    }
  }
}
