/** The append loop of a follower, and the repair of a follower's log by repeated requests. */
module LogMerge {
  import opened RaftTypes
  import opened RaftSteps

  /** Two logs that agree on an entry's term and place agree on everything up to it. */
  ghost predicate LogsMatch(a: Log, b: Log) {
    forall k {:trigger MatchAt(a, b, k)} :: 0 <= k < |a| && k < |b| ==> MatchAt(a, b, k)
  }

  ghost predicate MatchAt(a: Log, b: Log, k: nat)
    requires k < |a| && k < |b|
  {
    a[k].term == b[k].term ==> a[..k + 1] == b[..k + 1]
  }

  lemma {:induction false} MergeAtEnd(log: Log, entries: Log)
    ensures MergeEntries(log, |log|, entries) == log + entries
    decreases |entries|
  {
    if entries != [] {
      MergeAtEnd(log + [entries[0]], entries[1..]);
      assert log[..|log|] + [entries[0]] == log + [entries[0]];
      assert log + [entries[0]] + entries[1..] == log + entries;
    } else {
      assert log + entries == log;
    }
  }

  /** The append loop on any log and entries: up to some place `c` the terms agree; there either
      the entries end, and the log is left alone, or the log ends or disagrees, and everything
      from there on comes from the entries. */
  lemma {:induction false} MergeExact(log: Log, at: nat, entries: Log) returns (c: nat)
    requires at <= |log|
    ensures at <= c <= |log| && c <= at + |entries|
    ensures forall k :: at <= k < c ==> log[k].term == entries[k - at].term
    ensures c == at + |entries| ==> MergeEntries(log, at, entries) == log
    ensures c < at + |entries| ==>
      && (c == |log| || log[c].term != entries[c - at].term)
      && MergeEntries(log, at, entries) == log[..c] + entries[c - at..]
    decreases |entries|
  {
    if entries == [] {
      c := at;
    } else if at < |log| && log[at].term == entries[0].term {
      c := MergeExact(log, at + 1, entries[1..]);
      forall k | at <= k < c ensures log[k].term == entries[k - at].term {
        assert k > at ==> entries[1..][k - at - 1] == entries[k - at];
      }
      assert c < at + |entries| ==> entries[1..][c - at - 1..] == entries[c - at..];
    } else {
      c := at;
      MergeAtEnd(log[..at] + [entries[0]], entries[1..]);
      assert log[..at] + [entries[0]] + entries[1..] == log[..at] + entries;
    }
  }

  /** The append loop on a log that matches the sender's: nothing happens if the log already
      extends the sender's, and otherwise it becomes the sender's log. */
  lemma {:induction false} MergeMatching(log: Log, at: nat, full: Log)
    requires LogsMatch(log, full)
    requires at <= |log| && at <= |full| && log[..at] == full[..at]
    ensures MergeEntries(log, at, full[at..]) == if full <= log then log else full
    decreases |full| - at
  {
    if at < |full| {
      assert full[at..][1..] == full[at + 1..];
      if at < |log| && log[at].term == full[at].term {
        assert MatchAt(log, full, at);
        MergeMatching(log, at + 1, full);
      } else {
        assert log[..at] + [full[at]] == full[..at + 1];
        MergeAtEnd(full[..at + 1], full[at + 1..]);
        assert full[..at + 1] + full[at + 1..] == full;
      }
    }
  }

  // ----- repair -----

  /** The follower's log agrees with the leader's at the entry before index `next`. */
  ghost predicate AgreesBefore(leaderLog: Log, log: Log, next: nat) {
    next >= 1 && next - 1 <= |log| && (next > 1 ==>
      next - 1 <= |leaderLog| && log[next - 2].term == leaderLog[next - 2].term)
  }

  /** One exchange: the leader's request, the follower's reaction, and the leader's note of it. */
  method AskOnce(leader: NodeState, id: NodeId, p: NodeId, follower: NodeState)
    returns (leader': NodeState, follower': NodeState, success: bool)
    requires p in leader.nextIndex && 1 <= leader.nextIndex[p] <= |leader.log| + 1 && follower.term == leader.term
    ensures success == AgreesBefore(leader.log, follower.log, leader.nextIndex[p]) && follower'.term == leader.term
    ensures !success ==>
      && follower'.log == follower.log && leader.nextIndex[p] > 1
      && leader' == leader.(nextIndex := leader.nextIndex[p := leader.nextIndex[p] - 1])
    ensures success ==>
      && follower'.log == MergeEntries(follower.log, leader.nextIndex[p] - 1, leader.log[leader.nextIndex[p] - 1..])
      && leader' == leader.(nextIndex := leader.nextIndex[p := |leader.log| + 1],
                            matchIndex := leader.matchIndex[p := |leader.log|])
  {
    var req := BuildAppend(leader, id, p);
    var (f, reply) := HandleAppendEntries(follower, req);
    follower', success := f, reply.success;
    leader' := NoteReply(leader, p, req.prevIndex + |req.entries|, reply.success);
  }

  /** A leader's log after `n` rounds, in each of which clients proposed more. */
  function Grown(log: Log, growth: seq<Log>, n: nat): (r: Log)
    requires n <= |growth|
    ensures log <= r
  {
    if n == 0 then log else Grown(log, growth, n - 1) + growth[n - 1]
  }

  /** More entries at the end of the leader's log change nothing about where the logs agree. */
  lemma AgreesStill(leaderLog: Log, more: Log, log: Log, next: nat)
    requires leaderLog <= more && next <= |leaderLog| + 1
    ensures AgreesBefore(more, log, next) <==> AgreesBefore(leaderLog, log, next)
  {
  }

  /** Going back one entry per rejection, a leader finds the last place where a follower in its
      term agrees with it, after fewer rejections than the index it started from, even if its log
      grows all the while (by `growth[k]` before request k). The follower then holds the leader's
      log from there on; if the logs match, its log begins with the leader's as sent. */
  method Repair(start: NodeState, id: NodeId, p: NodeId, follower: NodeState, growth: seq<Log>)
    returns (leader: NodeState, repaired: NodeState, rejections: nat)
    requires p in start.nextIndex && 1 <= start.nextIndex[p] <= |start.log| + 1 && follower.term == start.term
    requires |growth| >= start.nextIndex[p]
    ensures rejections < start.nextIndex[p]
    ensures AgreesBefore(start.log, follower.log, start.nextIndex[p] - rejections)
    ensures forall k :: start.nextIndex[p] - rejections < k <= start.nextIndex[p] ==>
              !AgreesBefore(start.log, follower.log, k)
    ensures var sent := Grown(start.log, growth, rejections + 1);
      var prev := start.nextIndex[p] - rejections - 1;
      && leader == start.(log := sent, nextIndex := start.nextIndex[p := |sent| + 1],
                          matchIndex := start.matchIndex[p := |sent|])
      && repaired.log == MergeEntries(follower.log, prev, sent[prev..])
      && (LogsMatch(follower.log, sent) ==>
            repaired.log == if sent <= follower.log then follower.log else sent)
  {
    leader, repaired, rejections := start, follower, 0;
    while true
      invariant rejections < start.nextIndex[p]
      invariant leader == start.(log := Grown(start.log, growth, rejections),
                                 nextIndex := start.nextIndex[p := start.nextIndex[p] - rejections])
      invariant repaired.log == follower.log && repaired.term == start.term
      invariant forall k :: start.nextIndex[p] - rejections < k <= start.nextIndex[p] ==>
                  !AgreesBefore(start.log, follower.log, k)
      decreases start.nextIndex[p] - rejections
    {
      leader := leader.(log := leader.log + growth[rejections]);
      AgreesStill(start.log, leader.log, follower.log, leader.nextIndex[p]);
      var success;
      leader, repaired, success := AskOnce(leader, id, p, repaired);
      if success {
        RepairedLog(leader.log, follower.log, start.nextIndex[p] - rejections - 1);
        return;
      }
      rejections := rejections + 1;
    }
  }

  lemma RepairedLog(leaderLog: Log, log: Log, prev: nat)
    requires prev <= |leaderLog| && AgreesBefore(leaderLog, log, prev + 1)
    ensures LogsMatch(log, leaderLog) ==>
      MergeEntries(log, prev, leaderLog[prev..]) == if leaderLog <= log then log else leaderLog
  {
    if LogsMatch(log, leaderLog) {
      if prev > 0 {
        assert MatchAt(log, leaderLog, prev - 1);
      }
      MergeMatching(log, prev, leaderLog);
    }
  }
}
