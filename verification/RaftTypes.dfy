/** The values that Raft nodes store and exchange (proto/raft.proto, inc/common/common.hpp).

    Terms, indices and node ids are 64-bit in the program and unbounded here. */
module RaftTypes {

  datatype Option<+T> = None | Some(value: T)

  type Byte = b: nat | b < 256
  type Bytes = seq<Byte>

  type NodeId = nat
  type Term = nat

  datatype Entry = Entry(term: Term, command: Bytes)
  type Log = seq<Entry>

  datatype Role = Follower | Candidate | Leader

  datatype AppendRequest = AppendRequest(
    term: Term, leader: NodeId, prevIndex: nat, prevTerm: Term, entries: Log, leaderCommit: nat)
  datatype AppendReply = AppendReply(term: Term, success: bool)

  datatype VoteRequest = VoteRequest(term: Term, candidate: NodeId, lastIndex: nat, lastTerm: Term)
  datatype VoteReply = VoteReply(term: Term, granted: bool)

  datatype ApplyResult = ApplyResult(valid: bool, data: Bytes, index: nat)

  /** The term of the last entry, 0 for an empty log. */
  function LastTerm(log: Log): Term {
    if log == [] then 0 else log[|log| - 1].term
  }

  /** The term at the 1-based index k, 0 at index 0. An index past the end also yields 0;
      `AnyRun.RequestsInBounds` shows that no node ever asks for one. */
  function TermAt(log: Log, k: nat): Term {
    if 1 <= k <= |log| then log[k - 1].term else 0
  }

  function CommandAt(log: Log, k: nat): Bytes {
    if 1 <= k <= |log| then log[k - 1].command else []
  }

  function Min(a: nat, b: nat): nat { if a <= b then a else b }
}
