/** The key-value state machine with its table of latest replies (inc/kv/kv_server.hpp:26-97),
    as a function of the commands applied so far, and what it guarantees about retries. */
module KvMachine {
  import opened RaftTypes
  import opened KvCodec

  datatype Status = Success | NotLeader | Timeout
  datatype Reply = Reply(status: Status, value: Bytes)
  datatype Cached = Cached(seqNum: U64, reply: Reply)

  type Store = map<Bytes, Bytes>

  datatype Machine = Machine(store: Store, rifl: map<U64, Cached>)

  const EMPTY: Machine := Machine(map[], map[])

  function Lookup(store: Store, key: Bytes): Bytes {
    if key in store then store[key] else []
  }

  /** What executing a command does to the store. */
  function Perform(store: Store, r: Record): Store {
    match r.op
    case Put => store[r.key := r.value]
    case Get => store
    case Append => store[r.key := Lookup(store, r.key) + r.value]
  }

  /** What executing a command replies; only a read has a value. */
  function Answer(store: Store, r: Record): Reply {
    Reply(Success, if r.op.Get? then Lookup(store, r.key) else [])
  }

  predicate Duplicate(m: Machine, r: Record) {
    r.client in m.rifl && m.rifl[r.client].seqNum >= r.seqNum
  }

  function ReplyTo(m: Machine, r: Record): Reply {
    if Duplicate(m, r) then m.rifl[r.client].reply else Answer(m.store, r)
  }

  function Apply(m: Machine, data: Bytes): Machine {
    match Decode(data)
    case None => m
    case Some(r) =>
      if Duplicate(m, r) then m
      else Machine(Perform(m.store, r), m.rifl[r.client := Cached(r.seqNum, Answer(m.store, r))])
  }

  /** The machine after a sequence of commands. */
  function Replay(cmds: seq<Bytes>): Machine {
    if cmds == [] then EMPTY else Apply(Replay(cmds[..|cmds| - 1]), cmds[|cmds| - 1])
  }

  // ----- histories -----

  ghost predicate IsRecord(cmds: seq<Bytes>, i: int) {
    0 <= i < |cmds| && Decode(cmds[i]).Some?
  }

  ghost function RecordAt(cmds: seq<Bytes>, i: int): Record
    requires IsRecord(cmds, i)
  {
    Decode(cmds[i]).value
  }

  /** Command i changes the machine: it is well-formed and the table does not hold it back. */
  ghost predicate Executes(cmds: seq<Bytes>, i: int) {
    IsRecord(cmds, i) && !Duplicate(Replay(cmds[..i]), RecordAt(cmds, i))
  }

  ghost predicate SameOperation(cmds: seq<Bytes>, i: int, j: int)
    requires IsRecord(cmds, i) && IsRecord(cmds, j)
  {
    RecordAt(cmds, i).client == RecordAt(cmds, j).client && RecordAt(cmds, i).seqNum == RecordAt(cmds, j).seqNum
  }

  /** Command i is the first with its client and sequence number. */
  ghost predicate First(cmds: seq<Bytes>, i: int) {
    IsRecord(cmds, i) && forall j :: 0 <= j < i && IsRecord(cmds, j) ==> !SameOperation(cmds, j, i)
  }

  ghost predicate Overtakes(cmds: seq<Bytes>, j: int, i: int)
    requires IsRecord(cmds, j) && IsRecord(cmds, i)
  {
    RecordAt(cmds, j).client == RecordAt(cmds, i).client && RecordAt(cmds, j).seqNum > RecordAt(cmds, i).seqNum
  }

  /** A command of the same client with a larger sequence number comes before command i. */
  ghost predicate Overtaken(cmds: seq<Bytes>, i: int)
    requires IsRecord(cmds, i)
  {
    exists j :: 0 <= j < i && IsRecord(cmds, j) && Overtakes(cmds, j, i)
  }

  // ----- the table against the history -----

  /** Command f is the latest operation of its client and the table holds its reply. */
  ghost predicate IsLatest(cmds: seq<Bytes>, rifl: map<U64, Cached>, f: int) {
    && Executes(cmds, f) && RecordAt(cmds, f).client in rifl
    && rifl[RecordAt(cmds, f).client] ==
       Cached(RecordAt(cmds, f).seqNum, Answer(Replay(cmds[..f]).store, RecordAt(cmds, f)))
  }

  ghost predicate Listed(rifl: map<U64, Cached>, r: Record) {
    r.client in rifl && r.seqNum <= rifl[r.client].seqNum
  }

  ghost predicate TableOk(cmds: seq<Bytes>, rifl: map<U64, Cached>) {
    && (forall i :: IsRecord(cmds, i) ==> Listed(rifl, RecordAt(cmds, i)))
    && (forall c :: c in rifl ==> HasLatest(cmds, rifl, c))
  }

  ghost predicate HasLatest(cmds: seq<Bytes>, rifl: map<U64, Cached>, c: U64) {
    exists f :: IsLatest(cmds, rifl, f) && RecordAt(cmds, f).client == c
  }

  /** Executing is a matter of the commands before. */
  lemma PrefixExecutes(cmds: seq<Bytes>, n: nat, i: int)
    requires i < n <= |cmds|
    ensures IsRecord(cmds[..n], i) <==> IsRecord(cmds, i)
    ensures Executes(cmds[..n], i) <==> Executes(cmds, i)
    ensures IsRecord(cmds, i) ==> RecordAt(cmds[..n], i) == RecordAt(cmds, i) && cmds[..n][..i] == cmds[..i]
  {
    if 0 <= i {
      assert cmds[..n][..i] == cmds[..i];
    }
  }

  lemma {:induction false} TableAlways(cmds: seq<Bytes>)
    ensures TableOk(cmds, Replay(cmds).rifl)
  {
    if cmds != [] {
      var n := |cmds| - 1;
      var m := Replay(cmds[..n]);
      TableAlways(cmds[..n]);
      TableStep(cmds, n, m.rifl, Replay(cmds).rifl);
    }
  }

  lemma TableStep(cmds: seq<Bytes>, n: nat, before: map<U64, Cached>, after: map<U64, Cached>)
    requires n == |cmds| - 1 && TableOk(cmds[..n], before)
    requires before == Replay(cmds[..n]).rifl && after == Replay(cmds).rifl
    ensures TableOk(cmds, after)
  {
    forall i | IsRecord(cmds, i) ensures Listed(after, RecordAt(cmds, i)) {
      if i < n {
        PrefixExecutes(cmds, n, i);
        assert Listed(before, RecordAt(cmds[..n], i));
      }
    }
    forall c | c in after ensures HasLatest(cmds, after, c) {
      LatestStep(cmds, n, before, after, c);
    }
  }

  lemma LatestStep(cmds: seq<Bytes>, n: nat, before: map<U64, Cached>, after: map<U64, Cached>, c: U64)
    requires n == |cmds| - 1 && TableOk(cmds[..n], before) && c in after
    requires before == Replay(cmds[..n]).rifl && after == Replay(cmds).rifl
    ensures HasLatest(cmds, after, c)
  {
    if Executes(cmds, n) && RecordAt(cmds, n).client == c {
      assert IsLatest(cmds, after, n);
    } else {
      assert c in before && after[c] == before[c] && HasLatest(cmds[..n], before, c);
      var f :| IsLatest(cmds[..n], before, f) && RecordAt(cmds[..n], f).client == c;
      PrefixExecutes(cmds, n, f);
      assert IsLatest(cmds, after, f);
    }
  }

  /** The operation of a client that the table holds before command i. */
  lemma LatestBefore(cmds: seq<Bytes>, i: nat, c: U64) returns (f: int)
    requires i <= |cmds| && c in Replay(cmds[..i]).rifl
    ensures f < i && Executes(cmds, f) && RecordAt(cmds, f).client == c
    ensures Replay(cmds[..i]).rifl[c] ==
            Cached(RecordAt(cmds, f).seqNum, Answer(Replay(cmds[..f]).store, RecordAt(cmds, f)))
  {
    var rifl := Replay(cmds[..i]).rifl;
    TableAlways(cmds[..i]);
    assert HasLatest(cmds[..i], rifl, c);
    f :| IsLatest(cmds[..i], rifl, f) && RecordAt(cmds[..i], f).client == c;
    PrefixExecutes(cmds, i, f);
  }

  lemma ListedBefore(cmds: seq<Bytes>, i: nat, j: int)
    requires j < i <= |cmds| && IsRecord(cmds, j)
    ensures Listed(Replay(cmds[..i]).rifl, RecordAt(cmds, j))
  {
    TableAlways(cmds[..i]);
    PrefixExecutes(cmds, i, j);
    assert Listed(Replay(cmds[..i]).rifl, RecordAt(cmds[..i], j));
  }

  // ----- when commands execute -----

  /** A command executes exactly when no earlier command of its client has the same or a larger
      sequence number: when it is the first of its operation and nothing has overtaken it. */
  lemma ExecutesExactly(cmds: seq<Bytes>, i: int)
    requires IsRecord(cmds, i)
    ensures Executes(cmds, i) <==> First(cmds, i) && !Overtaken(cmds, i)
  {
    var m, r := Replay(cmds[..i]), RecordAt(cmds, i);
    if Duplicate(m, r) {
      var f := LatestBefore(cmds, i, r.client);
      assert SameOperation(cmds, f, i) || Overtakes(cmds, f, i);
    } else {
      forall j | 0 <= j < i && IsRecord(cmds, j) ensures !SameOperation(cmds, j, i) && !Overtakes(cmds, j, i) {
        ListedBefore(cmds, i, j);
      }
    }
  }

  /** A command that does not execute, malformed or a duplicate, changes neither store nor table. */
  lemma OnlyExecutionCounts(cmds: seq<Bytes>, i: int)
    requires 0 <= i < |cmds|
    ensures !Executes(cmds, i) ==> Replay(cmds[..i + 1]) == Replay(cmds[..i])
    ensures Executes(cmds, i) ==>
              Replay(cmds[..i + 1]).store == Perform(Replay(cmds[..i]).store, RecordAt(cmds, i))
  {
    assert cmds[..i + 1][..i] == cmds[..i];
  }

  /** No operation executes twice, however often it was retried. */
  lemma AtMostOnce(cmds: seq<Bytes>, i: int, j: int)
    requires Executes(cmds, i) && Executes(cmds, j) && SameOperation(cmds, i, j)
    ensures i == j
  {
    ExecutesExactly(cmds, i);
    ExecutesExactly(cmds, j);
  }

  lemma {:induction false} FirstOf(cmds: seq<Bytes>, i: int) returns (f: int)
    requires IsRecord(cmds, i)
    ensures f <= i && First(cmds, f) && SameOperation(cmds, f, i)
    decreases i
  {
    if First(cmds, i) {
      f := i;
    } else {
      var j :| 0 <= j < i && IsRecord(cmds, j) && SameOperation(cmds, j, i);
      f := FirstOf(cmds, j);
    }
  }

  /** An operation executes somewhere exactly when its first command was not overtaken. */
  lemma ExecutedUnlessOvertaken(cmds: seq<Bytes>, i: int)
    requires First(cmds, i)
    ensures (exists f :: Executes(cmds, f) && SameOperation(cmds, f, i)) <==> !Overtaken(cmds, i)
  {
    ExecutesExactly(cmds, i);
    if f :| Executes(cmds, f) && SameOperation(cmds, f, i) {
      ExecutesExactly(cmds, f);
      assert f == i;
    }
    if !Overtaken(cmds, i) {
      assert Executes(cmds, i) && SameOperation(cmds, i, i);
    }
  }

  /** Each client's operations first appear in the order of their sequence numbers. */
  ghost predicate InOrder(cmds: seq<Bytes>) {
    forall i, j :: 0 <= j < i && First(cmds, j) && First(cmds, i) ==> !Overtakes(cmds, j, i)
  }

  /** Exactly-once holds of a history exactly when each client's operations arrive in order:
      then, and only then, the commands that execute are the first ones of their operations. */
  lemma ExactlyOnce(cmds: seq<Bytes>)
    ensures (forall i :: Executes(cmds, i) <==> First(cmds, i)) <==> InOrder(cmds)
  {
    if InOrder(cmds) {
      forall i ensures Executes(cmds, i) <==> First(cmds, i) {
        if IsRecord(cmds, i) {
          ExecutesExactly(cmds, i);
          if First(cmds, i) && Overtaken(cmds, i) {
            var j :| 0 <= j < i && IsRecord(cmds, j) && Overtakes(cmds, j, i);
            var f := FirstOf(cmds, j);
            assert Overtakes(cmds, f, i);
            assert false;
          }
        }
      }
    }
    if forall i :: Executes(cmds, i) <==> First(cmds, i) {
      forall i, j | 0 <= j < i && First(cmds, j) && First(cmds, i) ensures !Overtakes(cmds, j, i) {
        ExecutesExactly(cmds, i);
      }
    }
  }

  // ----- what the store holds -----

  /** The store of a server that executes every record it is given and keeps no table. */
  function Plain(records: seq<Record>): Store {
    if records == [] then map[] else Perform(Plain(records[..|records| - 1]), records[|records| - 1])
  }

  /** The records that come first of their operation and were not overtaken, in order. */
  ghost function Effective(cmds: seq<Bytes>): seq<Record> {
    if cmds == [] then []
    else
      var n := |cmds| - 1;
      Effective(cmds[..n]) +
      (if First(cmds, n) && !Overtaken(cmds, n) then [RecordAt(cmds, n)] else [])
  }

  /** The first record of every operation, in order. */
  ghost function Firsts(cmds: seq<Bytes>): seq<Record> {
    if cmds == [] then []
    else Firsts(cmds[..|cmds| - 1]) + (if First(cmds, |cmds| - 1) then [RecordAt(cmds, |cmds| - 1)] else [])
  }

  /** The server with the table holds what a server without one would after the effective records:
      malformed commands, retries and overtaken operations leave no trace. */
  lemma {:induction false} StoreIsPlain(cmds: seq<Bytes>)
    ensures Replay(cmds).store == Plain(Effective(cmds))
  {
    if cmds != [] {
      var n := |cmds| - 1;
      StoreIsPlain(cmds[..n]);
      assert cmds[..n + 1] == cmds;
      OnlyExecutionCounts(cmds, n);
      if IsRecord(cmds, n) {
        ExecutesExactly(cmds, n);
      }
      if Executes(cmds, n) {
        PlainMore(Effective(cmds[..n]), RecordAt(cmds, n));
      } else {
        assert Effective(cmds) == Effective(cmds[..n]);
      }
    }
  }

  lemma PlainMore(records: seq<Record>, r: Record)
    ensures Plain(records + [r]) == Perform(Plain(records), r)
  {
    assert (records + [r])[..|records|] == records;
  }

  lemma PrefixFirst(cmds: seq<Bytes>, n: nat, i: int)
    requires i < n <= |cmds|
    ensures First(cmds[..n], i) <==> First(cmds, i)
  {
    forall j | 0 <= j <= i ensures IsRecord(cmds[..n], j) <==> IsRecord(cmds, j) {
      PrefixExecutes(cmds, n, j);
    }
    if IsRecord(cmds, i) {
      forall j | 0 <= j < i && IsRecord(cmds, j)
        ensures SameOperation(cmds[..n], j, i) <==> SameOperation(cmds, j, i)
      {
      }
    }
  }

  lemma {:induction false} InOrderKeepsAll(cmds: seq<Bytes>)
    requires InOrder(cmds)
    ensures Effective(cmds) == Firsts(cmds)
  {
    if cmds != [] {
      var n := |cmds| - 1;
      forall i, j | 0 <= j < i && First(cmds[..n], j) && First(cmds[..n], i)
        ensures !Overtakes(cmds[..n], j, i)
      {
        PrefixFirst(cmds, n, i);
        PrefixFirst(cmds, n, j);
        assert !Overtakes(cmds, j, i);
      }
      InOrderKeepsAll(cmds[..n]);
      ExactlyOnce(cmds);
      if First(cmds, n) {
        assert Executes(cmds, n);
        ExecutesExactly(cmds, n);
      }
    }
  }

  /** When operations arrive in order, the store is what executing every operation once, in that
      order, would make it, however many retries the log holds. */
  lemma RetriesDoNotShow(cmds: seq<Bytes>)
    requires InOrder(cmds)
    ensures Replay(cmds).store == Plain(Firsts(cmds))
  {
    StoreIsPlain(cmds);
    InOrderKeepsAll(cmds);
  }

  predicate Writes(r: Record, key: Bytes) {
    r.op.Put? && r.key == key
  }

  function AppendedBy(r: Record, key: Bytes): Bytes {
    if r.op.Append? && r.key == key then r.value else []
  }

  /** Everything that records append to a key, in order. */
  function Appended(records: seq<Record>, key: Bytes): Bytes {
    if records == [] then []
    else Appended(records[..|records| - 1], key) + AppendedBy(records[|records| - 1], key)
  }

  lemma KeyAfter(store: Store, r: Record, key: Bytes)
    ensures Lookup(Perform(store, r), key) ==
            if Writes(r, key) then r.value else Lookup(store, key) + AppendedBy(r, key)
  {
    assert Lookup(store, key) + [] == Lookup(store, key);
  }

  ghost predicate LastPut(records: seq<Record>, key: Bytes, p: int) {
    && -1 <= p < |records| && (p >= 0 ==> Writes(records[p], key))
    && forall k :: p < k < |records| ==> !Writes(records[k], key)
  }

  function PutAt(records: seq<Record>, p: int): Bytes
    requires p < |records|
  {
    if p < 0 then [] else records[p].value
  }

  /** The value put at p, and everything appended since. */
  function ValueSince(records: seq<Record>, key: Bytes, p: int): Bytes
    requires -1 <= p < |records|
  {
    PutAt(records, p) + Appended(records[p + 1..], key)
  }

  lemma KeyStep(records: seq<Record>, key: Bytes, p: int, n: nat, last: Bytes)
    requires n == |records| - 1 && -1 <= p < n && !Writes(records[n], key)
    requires Lookup(Plain(records[..n]), key) == last + Appended(records[..n][p + 1..], key)
    ensures Lookup(Plain(records), key) == last + Appended(records[p + 1..], key)
  {
    KeyAfter(Plain(records[..n]), records[n], key);
    AppendedMore(records, key, p + 1);
    Associate(last, Appended(records[..n][p + 1..], key), AppendedBy(records[n], key));
  }

  /** What a key holds: the value last put, at position p, with all later appends; without any
      put (p is -1), all appends. */
  lemma {:induction false} KeyHolds(records: seq<Record>, key: Bytes, p: int)
    requires LastPut(records, key, p)
    ensures Lookup(Plain(records), key) == ValueSince(records, key, p)
    decreases |records|
  {
    var n := |records| - 1;
    if p == n {
      assert PutAt(records, p) + [] == PutAt(records, p);
    } else {
      KeyHolds(records[..n], key, p);
      KeyStep(records, key, p, n, PutAt(records, p));
    }
  }

  lemma AppendedMore(records: seq<Record>, key: Bytes, from: nat)
    requires from < |records|
    ensures var n := |records| - 1;
      Appended(records[from..], key) == Appended(records[..n][from..], key) + AppendedBy(records[n], key)
  {
    var rest := records[from..];
    assert rest[..|rest| - 1] == records[..|records| - 1][from..];
  }

  lemma Associate(a: Bytes, b: Bytes, c: Bytes)
    ensures a + b + c == a + (b + c)
  {
  }

  /** The value of a key after the records: what was last put there, and all appends since. */
  ghost predicate Holds(records: seq<Record>, key: Bytes, value: Bytes) {
    exists p :: HoldsSince(records, key, p, value)
  }

  ghost predicate HoldsSince(records: seq<Record>, key: Bytes, p: int, value: Bytes) {
    LastPut(records, key, p) && value == ValueSince(records, key, p)
  }

  lemma {:induction false} SomeLastPut(records: seq<Record>, key: Bytes) returns (p: int)
    ensures LastPut(records, key, p)
    decreases |records|
  {
    var n := |records| - 1;
    if records == [] {
      p := -1;
    } else if Writes(records[n], key) {
      p := n;
    } else {
      p := SomeLastPut(records[..n], key);
    }
  }

  /** After every history a key is looked up to be exactly the value that the effective commands
      gave it. */
  lemma {:induction false} LookupExactly(cmds: seq<Bytes>, key: Bytes, value: Bytes)
    ensures Lookup(Replay(cmds).store, key) == value <==> Holds(Effective(cmds), key, value)
  {
    StoreIsPlain(cmds);
    HeldExactly(Effective(cmds), key, value);
  }

  lemma {:induction false} HeldExactly(records: seq<Record>, key: Bytes, value: Bytes)
    ensures Lookup(Plain(records), key) == value <==> Holds(records, key, value)
  {
    var p := SomeLastPut(records, key);
    KeyHoldsSince(records, key, p, value);
    if q :| HoldsSince(records, key, q, value) {
      KeyHoldsSince(records, key, q, value);
    }
  }

  lemma {:induction false} KeyHoldsSince(records: seq<Record>, key: Bytes, p: int, value: Bytes)
    requires LastPut(records, key, p)
    ensures HoldsSince(records, key, p, value) <==> Lookup(Plain(records), key) == value
  {
    KeyHolds(records, key, p);
  }

  // ----- what replies say -----

  /** The right reply to command f: success, and to a read the value that the commands before it
      left under the key. */
  ghost predicate RightReply(cmds: seq<Bytes>, f: int, reply: Reply)
    requires IsRecord(cmds, f)
  {
    && reply.status == Success
    && if RecordAt(cmds, f).op.Get? then Holds(Effective(cmds[..f]), RecordAt(cmds, f).key, reply.value)
       else reply.value == []
  }

  /** Executing a command answers the right reply and no other. */
  lemma AnswerExactly(cmds: seq<Bytes>, f: int, reply: Reply)
    requires IsRecord(cmds, f)
    ensures reply == Answer(Replay(cmds[..f]).store, RecordAt(cmds, f)) <==> RightReply(cmds, f, reply)
  {
    LookupExactly(cmds[..f], RecordAt(cmds, f).key, reply.value);
  }

  ghost predicate LatestBy(cmds: seq<Bytes>, f: int, i: int)
    requires IsRecord(cmds, f) && IsRecord(cmds, i)
  {
    && RecordAt(cmds, f).client == RecordAt(cmds, i).client
    && forall j :: 0 <= j <= i && IsRecord(cmds, j) ==> !Overtakes(cmds, j, f)
  }

  /** The reply to command i is the answer of the latest operation of its client, given when that
      operation executed, and only then. It answers command i's own operation exactly when
      nothing has overtaken it. */
  lemma ReplyComesFrom(cmds: seq<Bytes>, i: int) returns (f: int)
    requires IsRecord(cmds, i)
    ensures f <= i && Executes(cmds, f) && LatestBy(cmds, f, i)
    ensures ReplyTo(Replay(cmds[..i]), RecordAt(cmds, i)) == Answer(Replay(cmds[..f]).store, RecordAt(cmds, f))
    ensures RightReply(cmds, f, ReplyTo(Replay(cmds[..i]), RecordAt(cmds, i)))
    ensures SameOperation(cmds, f, i) <==> !Overtaken(cmds, i)
  {
    var m, r := Replay(cmds[..i]), RecordAt(cmds, i);
    if Duplicate(m, r) {
      f := LatestBefore(cmds, i, r.client);
      forall j | 0 <= j <= i && IsRecord(cmds, j) ensures !Overtakes(cmds, j, f) {
        if j < i {
          ListedBefore(cmds, i, j);
        }
      }
      assert Overtakes(cmds, f, i) <==> !SameOperation(cmds, f, i);
    } else {
      f := i;
      ExecutesExactly(cmds, i);
    }
    AnswerExactly(cmds, f, ReplyTo(m, r));
  }
}
