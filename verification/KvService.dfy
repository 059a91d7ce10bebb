/** The key-value server around the machine (inc/kv/kv_server.hpp): results from Raft arrive in
    order while requests register under the log index they wait for and may give up; and the
    client's retry loop (inc/kv/kv_client.hpp). */
module KvService {
  import opened RaftTypes
  import opened KvCodec
  import opened KvMachine

  datatype Waiter = Waiter(client: U64, seqNum: U64)

  datatype Server = Server(machine: Machine, pending: map<nat, Waiter>, lastApplied: nat)

  predicate WaitsFor(w: Waiter, data: Bytes) {
    match Decode(data)
    case None => false
    case Some(r) => w == Waiter(r.client, r.seqNum)
  }

  /** The server after a result from Raft. */
  function Take(s: Server, result: ApplyResult): Server {
    if !result.valid then s
    else Server(Apply(s.machine, result.data), s.pending - {result.index},
                if Decode(result.data).Some? then result.index else s.lastApplied)
  }

  /** What the waiter at the result's index is told, if there is one. */
  function Respond(s: Server, result: ApplyResult): Option<Reply> {
    if !result.valid || result.index !in s.pending then None
    else if WaitsFor(s.pending[result.index], result.data)
    then Some(ReplyTo(s.machine, Decode(result.data).value))
    else Some(Reply(Timeout, []))
  }

  class KvServer {
    var store: Store
    var rifl: map<U64, Cached>
    var pending: map<nat, Waiter>
    var lastKvApplied: nat

    ghost function State(): Server
      reads this
    {
      Server(Machine(store, rifl), pending, lastKvApplied)
    }

    constructor ()
      ensures State() == Server(EMPTY, map[], 0)
    {
      store, rifl, pending, lastKvApplied := map[], map[], map[], 0;
    }

    method OnApply(result: ApplyResult) returns (told: Option<Reply>)
      modifies this
      ensures State() == Take(old(State()), result)
      ensures told == Respond(old(State()), result)
      ensures result.valid && result.index in old(pending) && Decode(result.data).Some? ==>
        var r := Decode(result.data).value;
        var isNew := !(r.client in old(rifl) && old(rifl)[r.client].seqNum >= r.seqNum);
        if old(pending)[result.index] != Waiter(r.client, r.seqNum) then told == Some(Reply(Timeout, []))
        else if !isNew then told == Some(old(rifl)[r.client].reply)
        else told == Some(Reply(Success, if r.op.Get? && r.key in old(store) then old(store)[r.key] else []))
    {
      told := None;
      if !result.valid {
        return;
      }
      var decoded := Deserialize(result.data);
      if decoded.None? {
        told := NotifyWaiter(result.index, 0, 0, Reply(Timeout, []));
        return;
      }
      var r := decoded.value;
      var reply := Reply(Success, []);
      var isDuplicate := r.client in rifl && rifl[r.client].seqNum >= r.seqNum;
      if isDuplicate {
        reply := rifl[r.client].reply;
      } else {
        match r.op
        case Put =>
          store := store[r.key := r.value];
        case Get =>
          if r.key in store {
            reply := Reply(Success, store[r.key]);
          }
        case Append =>
          store := store[r.key := (if r.key in store then store[r.key] else []) + r.value];
      }
      if !isDuplicate {
        rifl := rifl[r.client := Cached(r.seqNum, reply)];
      }
      lastKvApplied := result.index;
      told := NotifyWaiter(result.index, r.client, r.seqNum, reply);
    }

    /** Tells the waiter at an index the reply, or a timeout if it waits for another operation. */
    method NotifyWaiter(index: nat, client: U64, seqNum: U64, reply: Reply) returns (told: Option<Reply>)
      modifies this`pending
      ensures pending == old(pending) - {index}
      ensures told == if index !in old(pending) then None
                      else if old(pending)[index] == Waiter(client, seqNum) then Some(reply)
                      else Some(Reply(Timeout, []))
    {
      if index !in pending {
        return None;
      }
      told := Some(if pending[index] == Waiter(client, seqNum) then reply else Reply(Timeout, []));
      pending := pending - {index};
    }

    /** What happens to a request once its command was proposed, until it waits. */
    method BeginWait(isLeader: bool, index: nat, client: U64, seqNum: U64) returns (told: Option<Reply>)
      modifies this`pending
      ensures !isLeader ==> told == Some(Reply(NotLeader, [])) && pending == old(pending)
      ensures isLeader ==> told == None && pending == old(pending)[index := Waiter(client, seqNum)]
    {
      if !isLeader {
        return Some(Reply(NotLeader, []));
      }
      pending := pending[index := Waiter(client, seqNum)];
      told := None;
    }

    /** A request whose time is up. */
    method GiveUp(index: nat) returns (told: Reply)
      modifies this`pending
      ensures told == Reply(Timeout, []) && pending == old(pending) - {index}
    {
      pending := pending - {index};
      told := Reply(Timeout, []);
    }

    /** The read that a leader with a lease answers from its store. */
    method TryLeaderRead(hasLease: bool, key: Bytes) returns (value: Option<Bytes>)
      ensures value == if hasLease then Some(Lookup(store, key)) else None
    {
      if !hasLease {
        return None;
      }
      value := Some(if key in store then store[key] else []);
    }
  }

  // ----- whole runs of a server -----

  datatype Event = NextResult | Register(index: nat, waiter: Waiter) | Cancel(index: nat)

  datatype Answered = Answered(index: nat, waiter: Waiter, reply: Reply)

  /** A server with how far it has come in the results of its node, the answers it has given, and
      how many requests registered and how many of them were dropped without an answer. */
  datatype Service = Service(server: Server, position: nat, answers: seq<Answered>, registered: nat, dropped: nat)

  const FRESH: Service := Service(Server(EMPTY, map[], 0), 0, [], 0, 0)

  function Happen(results: seq<ApplyResult>, x: Service, e: Event): Service {
    match e
    case NextResult =>
      if x.position >= |results| then x
      else
        var result := results[x.position];
        var told := Respond(x.server, result);
        x.(server := Take(x.server, result), position := x.position + 1,
           answers := if told.None? then x.answers
                      else x.answers + [Answered(result.index, x.server.pending[result.index], told.value)])
    case Register(index, w) =>
      x.(server := x.server.(pending := x.server.pending[index := w]), registered := x.registered + 1,
         dropped := x.dropped + if index in x.server.pending then 1 else 0)
    case Cancel(index) =>
      x.(server := x.server.(pending := x.server.pending - {index}),
         dropped := x.dropped + if index in x.server.pending then 1 else 0)
  }

  function Serve(results: seq<ApplyResult>, events: seq<Event>): Service {
    if events == [] then FRESH
    else Happen(results, Serve(results, events[..|events| - 1]), events[|events| - 1])
  }

  /** Results as a node hands them over: valid, and numbered from 1 on. */
  predicate Numbered(results: seq<ApplyResult>) {
    forall k :: 0 <= k < |results| ==> results[k].valid && results[k].index == k + 1
  }

  function Commands(results: seq<ApplyResult>): (cmds: seq<Bytes>)
    ensures |cmds| == |results| && forall k :: 0 <= k < |cmds| ==> cmds[k] == results[k].data
  {
    seq(|results|, k requires 0 <= k < |results| => results[k].data)
  }

  /** An answer is a success exactly when the command at its index is the waiter's own; it then is
      the machine's reply to that command, and a timeout otherwise. */
  ghost predicate AnswerOk(cmds: seq<Bytes>, a: Answered) {
    var i := a.index - 1;
    && 0 <= i < |cmds|
    && (a.reply.status.Success? <==>
          && IsRecord(cmds, i)
          && RecordAt(cmds, i).client == a.waiter.client && RecordAt(cmds, i).seqNum == a.waiter.seqNum)
    && (!a.reply.status.Success? ==> a.reply == Reply(Timeout, []))
    && (a.reply.status.Success? ==> a.reply == ReplyTo(Replay(cmds[..i]), RecordAt(cmds, i)))
  }

  ghost predicate AnswersOk(cmds: seq<Bytes>, answers: seq<Answered>) {
    forall k :: 0 <= k < |answers| ==> AnswerOk(cmds, answers[k])
  }

  predicate MachineOk(results: seq<ApplyResult>, position: nat, machine: Machine) {
    position <= |results| && machine == Replay(Commands(results)[..position])
  }

  /** The index noted last is that of the last well-formed command taken. */
  ghost predicate NotedLast(results: seq<ApplyResult>, position: nat, last: nat) {
    && last <= position <= |results| && (last > 0 ==> Decode(results[last - 1].data).Some?)
    && forall k :: last <= k < position ==> Decode(results[k].data).None?
  }

  predicate AllAccounted(x: Service) {
    x.registered == |x.answers| + |x.server.pending| + x.dropped
  }

  /** Every run of a server: the machine is that of the results taken so far, every answer is
      right, and every registered request is answered once, still waiting, or was dropped. */
  lemma {:induction false} ServiceAlways(results: seq<ApplyResult>, events: seq<Event>)
    requires Numbered(results)
    ensures MachineOk(results, Serve(results, events).position, Serve(results, events).server.machine)
    ensures AnswersOk(Commands(results), Serve(results, events).answers)
    ensures AllAccounted(Serve(results, events))
    ensures NotedLast(results, Serve(results, events).position, Serve(results, events).server.lastApplied)
  {
    if events != [] {
      var x := Serve(results, events[..|events| - 1]);
      ServiceAlways(results, events[..|events| - 1]);
      match events[|events| - 1]
      case NextResult =>
        TakeKeeps(results, x);
        TakeNotes(results, x);
      case Register(index, w) => Resize(x.server.pending, index, w);
      case Cancel(index) => Resize(x.server.pending, index, Waiter(0, 0));
    }
  }

  lemma Resize(pending: map<nat, Waiter>, index: nat, w: Waiter)
    ensures |pending - {index}| == |pending| - if index in pending then 1 else 0
    ensures |pending[index := w]| == |pending| + if index in pending then 0 else 1
  {
    assert (pending - {index}).Keys == pending.Keys - {index};
    assert pending[index := w].Keys == pending.Keys + {index};
    assert |pending.Keys| == |pending| && |(pending - {index}).Keys| == |pending - {index}|;
    assert |pending[index := w].Keys| == |pending[index := w]|;
  }

  lemma MachineAfter(results: seq<ApplyResult>, i: nat, machine: Machine)
    requires MachineOk(results, i, machine) && i < |results|
    ensures MachineOk(results, i + 1, Apply(machine, results[i].data))
  {
    var cmds := Commands(results);
    assert cmds[..i + 1][..i] == cmds[..i];
  }

  lemma TakeNotes(results: seq<ApplyResult>, x: Service)
    requires Numbered(results) && NotedLast(results, x.position, x.server.lastApplied)
    ensures var y := Happen(results, x, NextResult); NotedLast(results, y.position, y.server.lastApplied)
  {
  }

  lemma TakeKeeps(results: seq<ApplyResult>, x: Service)
    requires Numbered(results) && MachineOk(results, x.position, x.server.machine)
    requires AnswersOk(Commands(results), x.answers) && AllAccounted(x)
    ensures var y := Happen(results, x, NextResult);
      && MachineOk(results, y.position, y.server.machine) && AnswersOk(Commands(results), y.answers)
      && AllAccounted(y)
  {
    if x.position < |results| {
      var cmds, i := Commands(results), x.position;
      var result := results[i];
      MachineAfter(results, i, x.server.machine);
      Resize(x.server.pending, result.index, Waiter(0, 0));
      if result.index in x.server.pending {
        RespondOk(cmds, i, x.server, result);
        OneMoreAnswer(cmds, x.answers, Answered(i + 1, x.server.pending[i + 1], Respond(x.server, result).value));
      }
    }
  }

  lemma OneMoreAnswer(cmds: seq<Bytes>, answers: seq<Answered>, a: Answered)
    requires AnswersOk(cmds, answers) && AnswerOk(cmds, a)
    ensures AnswersOk(cmds, answers + [a])
  {
  }

  lemma RespondOk(cmds: seq<Bytes>, i: nat, s: Server, result: ApplyResult)
    requires i < |cmds| && result == ApplyResult(true, cmds[i], i + 1) && i + 1 in s.pending
    requires s.machine == Replay(cmds[..i])
    ensures AnswerOk(cmds, Answered(i + 1, s.pending[i + 1], Respond(s, result).value))
  {
    if WaitsFor(s.pending[i + 1], cmds[i]) {
      var f := ReplyComesFrom(cmds, i);
    }
  }

  /** What has become of waiter `w`, registered at `index` when the server was at `from` and had
      given `given` answers, if nobody has registered or given up at that index since. */
  ghost predicate Fate(x: Service, index: nat, w: Waiter, from: nat, given: nat) {
    && given <= |x.answers| && from <= x.position
    && if from < index <= x.position then
         && index !in x.server.pending
         && exists k :: given <= k < |x.answers| && x.answers[k].index == index && x.answers[k].waiter == w
       else
         && index in x.server.pending && x.server.pending[index] == w
         && forall k :: given <= k < |x.answers| ==> x.answers[k].index != index
  }

  predicate LeavesAlone(e: Event, index: nat) {
    e.NextResult? || e.index != index
  }

  lemma FateStep(results: seq<ApplyResult>, x: Service, e: Event, index: nat, w: Waiter, from: nat, given: nat)
    requires Numbered(results) && Fate(x, index, w, from, given) && LeavesAlone(e, index)
    ensures Fate(Happen(results, x, e), index, w, from, given)
  {
    var y := Happen(results, x, e);
    if from < index <= x.position {
      var k :| given <= k < |x.answers| && x.answers[k].index == index && x.answers[k].waiter == w;
      assert y.answers[k] == x.answers[k];
    } else if from < index <= y.position {
      var k := |x.answers|;
      assert y.answers[k] == Answered(index, w, y.answers[k].reply);
    }
  }

  /** A request that registers before its result arrives is answered, for certain, when the result
      does; one that registers later waits until it gives up. In the meantime others may register,
      give up and be answered at other indices. */
  lemma {:induction false} WaiterIsAnswered(results: seq<ApplyResult>, before: seq<Event>, index: nat, w: Waiter,
                                            more: seq<Event>)
    requires Numbered(results) && forall k :: 0 <= k < |more| ==> LeavesAlone(more[k], index)
    ensures var x := Serve(results, before);
      Fate(Serve(results, before + [Register(index, w)] + more), index, w, x.position, |x.answers|)
    decreases |more|
  {
    var x, start := Serve(results, before), before + [Register(index, w)];
    if more == [] {
      assert start + more == start && start[..|start| - 1] == before;
    } else {
      var n := |more| - 1;
      WaiterIsAnswered(results, before, index, w, more[..n]);
      assert (start + more)[..|start + more| - 1] == start + more[..n];
      FateStep(results, Serve(results, start + more[..n]), more[n], index, w, x.position, |x.answers|);
    }
  }

  /** Success means executed: a request that is told success, and whose operation no later one of
      its client has overtaken, was executed by one command at or before its index, and was told
      what that command answered. */
  lemma SuccessMeansExecuted(cmds: seq<Bytes>, a: Answered) returns (f: int)
    requires AnswerOk(cmds, a) && a.reply.status.Success? && !Overtaken(cmds, a.index - 1)
    ensures 0 <= f < a.index && Executes(cmds, f) && WaitsFor(a.waiter, cmds[f])
    ensures RightReply(cmds, f, a.reply)
    ensures forall g :: Executes(cmds, g) && WaitsFor(a.waiter, cmds[g]) ==> g == f
  {
    f := ReplyComesFrom(cmds, a.index - 1);
    forall g | Executes(cmds, g) && WaitsFor(a.waiter, cmds[g]) ensures g == f {
      AtMostOnce(cmds, f, g);
    }
  }

  // ----- the client -----

  const MAX_ATTEMPTS: nat := 50

  predicate Succeeds(response: Option<Reply>) {
    response.Some? && response.value.status.Success?
  }

  /** One attempt: the replica asked and the operation requested of it. */
  datatype Attempt = Attempt(replica: nat, request: Record)

  /** Attempts at one operation, at one replica after the other. */
  predicate InTurn(made: seq<Attempt>, replicas: nat, first: Attempt)
    requires replicas > 0
  {
    && (forall k :: 0 <= k < |made| ==> made[k] == first.(replica := made[k].replica))
    && (made != [] ==> made[0] == first)
    && (forall k :: 0 < k < |made| ==> made[k].replica == (made[k - 1].replica + 1) % replicas)
  }

  lemma OneMore(made: seq<Attempt>, replicas: nat, first: Attempt, next: Attempt)
    requires replicas > 0 && InTurn(made, replicas, first) && next == first.(replica := next.replica)
    requires next.replica == if made == [] then first.replica else (made[|made| - 1].replica + 1) % replicas
    ensures InTurn(made + [next], replicas, first)
  {
  }

  class KvClient {
    const replicas: nat
    const client: U64
    var seqNum: U64
    var leader: nat

    predicate Valid()
      reads this
    {
      leader < replicas
    }

    constructor (replicas: nat, client: U64)
      requires replicas > 0
      ensures Valid() && this.replicas == replicas && this.client == client && seqNum == 0 && leader == 0
    {
      this.replicas, this.client, seqNum, leader := replicas, client, 0, 0;
    }

    /** One operation. `responses[k]` is what the k-th attempt would bring back, if made: a failed
        call is None. All attempts name the same operation and go to one replica after the other;
        the operation succeeds exactly when some attempt does, with the first such answer, and the
        replica that gave it is asked first next time; if none does, the one after the last. */
    method Call(op: Op, key: Bytes, value: Bytes, responses: seq<Option<Reply>>)
      returns (reply: Reply, made: seq<Attempt>)
      requires Valid() && |responses| == MAX_ATTEMPTS
      modifies this
      ensures Valid() && seqNum == (old(seqNum) + 1) % TWO_TO_THE_64
      ensures 0 < |made| <= MAX_ATTEMPTS
      ensures InTurn(made, replicas, Attempt(old(leader), Record(op, client, seqNum, key, value)))
      ensures forall k :: 0 <= k < |made| - 1 ==> !Succeeds(responses[k])
      ensures if Succeeds(responses[|made| - 1])
              then reply == responses[|made| - 1].value && leader == made[|made| - 1].replica
              else reply == Reply(Timeout, []) && |made| == MAX_ATTEMPTS
                   && leader == (made[|made| - 1].replica + 1) % replicas
    {
      seqNum := (seqNum + 1) % TWO_TO_THE_64;
      var request := Record(op, client, seqNum, key, value);
      made := [];
      var attempt := 0;
      while attempt < MAX_ATTEMPTS
        invariant Valid() && seqNum == (old(seqNum) + 1) % TWO_TO_THE_64
        invariant 0 <= attempt == |made| <= MAX_ATTEMPTS
        invariant request == Record(op, client, seqNum, key, value)
        invariant InTurn(made, replicas, Attempt(old(leader), request))
        invariant leader == if made == [] then old(leader) else (made[|made| - 1].replica + 1) % replicas
        invariant forall k :: 0 <= k < attempt ==> !Succeeds(responses[k])
      {
        OneMore(made, replicas, Attempt(old(leader), request), Attempt(leader, request));
        made := made + [Attempt(leader, request)];
        if Succeeds(responses[attempt]) {
          return responses[attempt].value, made;
        }
        leader := (leader + 1) % replicas;
        attempt := attempt + 1;
      }
      reply := Reply(Timeout, []);
    }
  }
}
