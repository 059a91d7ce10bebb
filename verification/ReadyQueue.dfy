/** The queue that carries applied results to the state machine (inc/toolings/msg_queue.hpp:63-118).
    The class gives what a thread does in one stretch under the mutex; the runs interleave such
    stretches of any number of threads, with both condition variables and spurious wake-ups. */
module ReadyQueue {
  import opened RaftTypes

  type Item = ApplyResult

  /** What a stretch under the mutex comes to. */
  datatype Verdict = MustWait | Through | Closed

  predicate Room(buffer: nat, items: seq<Item>) {
    if buffer == 0 then items == [] else |items| < buffer
  }

  function OfferVerdict(buffer: nat, items: seq<Item>, closed: bool): Verdict {
    if closed then Closed else if Room(buffer, items) then Through else MustWait
  }

  function TakeVerdict(items: seq<Item>, closed: bool): Verdict {
    if closed then Closed else if items != [] then Through else MustWait
  }

  class MessageQueue {
    const bufferSize: nat
    var queue: seq<Item>
    var closed: bool

    constructor (bufferSize: nat)
      ensures this.bufferSize == bufferSize && queue == [] && !closed
    {
      this.bufferSize, queue, closed := bufferSize, [], false;
    }

    /** `enqueue` up to its first wait or its push. */
    method Offer(value: Item) returns (verdict: Verdict)
      modifies this`queue
      ensures verdict == OfferVerdict(bufferSize, old(queue), closed)
      ensures verdict.Through? <==> !closed && |old(queue)| < Occupancy(bufferSize)
      ensures queue == if verdict.Through? then old(queue) + [value] else old(queue)
      ensures |old(queue)| <= Occupancy(bufferSize) ==> |queue| <= Occupancy(bufferSize)
    {
      var ready;
      if bufferSize == 0 {
        ready := queue == [] || closed;
      } else {
        ready := |queue| < bufferSize || closed;
      }
      if !ready {
        return MustWait;
      }
      if closed {
        return Closed;
      }
      queue := queue + [value];
      verdict := Through;
    }

    /** `dequeue` up to its wait or its return. A closed queue yields no item, even if it has some. */
    method Take() returns (verdict: Verdict, value: Option<Item>)
      modifies this`queue
      ensures verdict == TakeVerdict(old(queue), closed) && (value.Some? <==> verdict.Through?)
      ensures value.Some? <==> !closed && old(queue) != []
      ensures value.Some? ==> old(queue) == [value.value] + queue
      ensures value.None? ==> queue == old(queue)
    {
      if queue == [] && !closed {
        return MustWait, None;
      }
      if closed {
        return Closed, None;
      }
      value := Some(queue[0]);
      queue := queue[1..];
      verdict := Through;
    }

    method TryDequeue() returns (value: Option<Item>)
      modifies this`queue
      ensures value.None? <==> old(queue) == []
      ensures if value.None? then queue == old(queue) else old(queue) == [value.value] + queue
    {
      if queue == [] {
        return None;
      }
      value := Some(queue[0]);
      queue := queue[1..];
    }

    /** Whether this call is the one that closed the queue, and so has to wake all sleepers. */
    method Close() returns (first: bool)
      modifies this`closed
      ensures closed && first == !old(closed)
    {
      first := !closed;
      closed := true;
    }
  }

  function Occupancy(buffer: nat): nat { if buffer == 0 then 1 else buffer }

  /** An item gets through exactly when the queue is open and has not reached its bound, and waits
      exactly when it is open and has. */
  lemma OfferExactly(buffer: nat, items: seq<Item>, closed: bool)
    ensures OfferVerdict(buffer, items, closed).Through? <==> !closed && |items| < Occupancy(buffer)
    ensures OfferVerdict(buffer, items, closed).MustWait? <==> !closed && |items| >= Occupancy(buffer)
  {
  }

  /** An item is there to take exactly when the queue is open and not empty. */
  lemma TakeExactly(items: seq<Item>, closed: bool)
    ensures TakeVerdict(items, closed).Through? <==> !closed && |items| > 0
    ensures TakeVerdict(items, closed).MustWait? <==> !closed && |items| == 0
  {
  }

  // ----- interleavings -----

  /** A ticket is an item's position among all items accepted. */
  datatype Thread =
    | Outside
    | Offering(item: Item) | OfferAsleep(item: Item)                             // the first wait of enqueue
    | Handing(ticket: nat, item: Item) | HandAsleep(ticket: nat, item: Item)     // its second wait
    | Sent(ticket: nat, item: Item) | Refused                                    // enqueue has returned
    | Taking | TakeAsleep
    | Took(item: Item) | TookNothing                                             // dequeue has returned

  predicate Busy(th: Thread) {
    th.Offering? || th.OfferAsleep? || th.Handing? || th.HandAsleep? || th.Taking? || th.TakeAsleep?
  }

  /** `announced`: the call that closed the queue has woken all sleepers. */
  datatype State = State(
    queue: seq<Item>, closed: bool, announced: bool, accepted: seq<Item>, delivered: seq<Item>,
    threads: map<nat, Thread>)

  const START: State := State([], false, false, [], [], map[])

  datatype Step =
    | CallEnqueue(thread: nat, item: Item)
    | CallDequeue(thread: nat)
    | TryDequeue
    | Proceed(thread: nat)     // a stretch under the mutex
    | Spurious(thread: nat)
    | SetClosed
    | Announce

  function At(threads: map<nat, Thread>, t: nat): Thread {
    if t in threads then threads[t] else Outside
  }

  function WokenProducer(th: Thread): Thread {
    match th
    case OfferAsleep(item) => Offering(item)
    case HandAsleep(ticket, item) => Handing(ticket, item)
    case _ => th
  }

  function WokenConsumer(th: Thread): Thread {
    if th.TakeAsleep? then Taking else th
  }

  function WakeProducers(threads: map<nat, Thread>): map<nat, Thread> {
    map t | t in threads :: WokenProducer(threads[t])
  }

  function WakeConsumers(threads: map<nat, Thread>): map<nat, Thread> {
    map t | t in threads :: WokenConsumer(threads[t])
  }

  function Proceeds(buffer: nat, s: State, t: nat): State {
    match At(s.threads, t)
    case Offering(item) =>
      (match OfferVerdict(buffer, s.queue, s.closed)
       case MustWait => s.(threads := s.threads[t := OfferAsleep(item)])
       case Closed => s.(threads := s.threads[t := Refused])
       case Through =>
         var ticket := |s.accepted|;
         s.(queue := s.queue + [item], accepted := s.accepted + [item],
            threads := WakeConsumers(s.threads)[
              t := if buffer == 0 then HandAsleep(ticket, item) else Sent(ticket, item)]))
    case Handing(ticket, item) =>
      if s.queue == [] || s.closed then s.(threads := s.threads[t := Sent(ticket, item)])
      else s.(threads := s.threads[t := HandAsleep(ticket, item)])
    case Taking =>
      (match TakeVerdict(s.queue, s.closed)
       case MustWait => s.(threads := s.threads[t := TakeAsleep])
       case Closed => s.(threads := s.threads[t := TookNothing])
       case Through =>
         s.(queue := s.queue[1..], delivered := s.delivered + [s.queue[0]],
            threads := WakeProducers(s.threads)[t := Took(s.queue[0])]))
    case _ => s
  }

  function Next(buffer: nat, s: State, step: Step): State {
    match step
    case CallEnqueue(t, item) => if Busy(At(s.threads, t)) then s else s.(threads := s.threads[t := Offering(item)])
    case CallDequeue(t) => if Busy(At(s.threads, t)) then s else s.(threads := s.threads[t := Taking])
    case TryDequeue => if s.queue == [] then s else s.(queue := s.queue[1..], delivered := s.delivered + [s.queue[0]])
    case Proceed(t) => Proceeds(buffer, s, t)
    case Spurious(t) => s.(threads := s.threads[t := WokenConsumer(WokenProducer(At(s.threads, t)))])
    case SetClosed => s.(closed := true)
    case Announce => if s.closed then s.(announced := true, threads := WakeConsumers(WakeProducers(s.threads))) else s
  }

  function After(buffer: nat, run: seq<Step>): State {
    if run == [] then START else Next(buffer, After(buffer, run[..|run| - 1]), run[|run| - 1])
  }

  // ----- what every run keeps -----

  /** Delivered items followed by queued ones are the accepted ones, and the queue is within bounds. */
  predicate Conserved(buffer: nat, s: State) {
    s.accepted == s.delivered + s.queue && |s.queue| <= Occupancy(buffer)
  }

  predicate TicketOk(accepted: seq<Item>, ticket: nat, item: Item) {
    ticket < |accepted| && accepted[ticket] == item
  }

  predicate ThreadOk(buffer: nat, accepted: seq<Item>, taken: nat, closed: bool, th: Thread) {
    match th
    case Handing(ticket, item) => TicketOk(accepted, ticket, item)
    case HandAsleep(ticket, item) => TicketOk(accepted, ticket, item)
    case Sent(ticket, item) => TicketOk(accepted, ticket, item) && (buffer == 0 ==> ticket < taken || closed)
    case _ => true
  }

  predicate ThreadsOk(buffer: nat, accepted: seq<Item>, taken: nat, closed: bool, threads: map<nat, Thread>) {
    forall t :: t in threads ==> ThreadOk(buffer, accepted, taken, closed, threads[t])
  }

  predicate Inv(buffer: nat, s: State) {
    Conserved(buffer, s) && ThreadsOk(buffer, s.accepted, |s.delivered|, s.closed, s.threads)
  }

  lemma ConservedNext(buffer: nat, s: State, step: Step)
    requires Conserved(buffer, s)
    ensures Conserved(buffer, Next(buffer, s, step))
  {
  }

  lemma Grows(buffer: nat, s: State, step: Step)
    ensures var s' := Next(buffer, s, step);
      s.accepted <= s'.accepted && |s.delivered| <= |s'.delivered| && (s.closed ==> s'.closed)
  {
  }

  predicate Stays(th: Thread, th': Thread) {
    th' == th || th' == WokenProducer(th) || th' == WokenConsumer(th) || th' == WokenConsumer(WokenProducer(th))
  }

  /** What a step does to the other threads: some wake up, and one may begin a call. */
  lemma Bystander(buffer: nat, s: State, step: Step, t: nat)
    requires t in Next(buffer, s, step).threads && step != Proceed(t)
    ensures Stays(At(s.threads, t), Next(buffer, s, step).threads[t])
            || Next(buffer, s, step).threads[t].Offering? || Next(buffer, s, step).threads[t].Taking?
  {
  }

  lemma ThreadStays(buffer: nat, s: State, s': State, th: Thread, th': Thread)
    requires ThreadOk(buffer, s.accepted, |s.delivered|, s.closed, th) && Stays(th, th')
    requires s.accepted <= s'.accepted && |s.delivered| <= |s'.delivered| && (s.closed ==> s'.closed)
    ensures ThreadOk(buffer, s'.accepted, |s'.delivered|, s'.closed, th')
  {
  }

  lemma MoverOk(buffer: nat, s: State, t: nat)
    requires Inv(buffer, s)
    ensures var s' := Proceeds(buffer, s, t);
      ThreadOk(buffer, s'.accepted, |s'.delivered|, s'.closed, At(s'.threads, t))
  {
    assert t in s.threads ==> ThreadOk(buffer, s.accepted, |s.delivered|, s.closed, s.threads[t]);
  }

  lemma ThreadsOkNext(buffer: nat, s: State, step: Step)
    requires Inv(buffer, s)
    ensures var s' := Next(buffer, s, step);
      ThreadsOk(buffer, s'.accepted, |s'.delivered|, s'.closed, s'.threads)
  {
    var s' := Next(buffer, s, step);
    forall t | t in s'.threads ensures ThreadOk(buffer, s'.accepted, |s'.delivered|, s'.closed, s'.threads[t]) {
      assert t in s.threads ==> ThreadOk(buffer, s.accepted, |s.delivered|, s.closed, s.threads[t]);
      if step == Proceed(t) {
        MoverOk(buffer, s, t);
      } else {
        Bystander(buffer, s, step, t);
        if Stays(At(s.threads, t), s'.threads[t]) {
          Grows(buffer, s, step);
          ThreadStays(buffer, s, s', At(s.threads, t), s'.threads[t]);
        }
      }
    }
  }

  /** Every run, over all interleavings. */
  lemma {:induction false} Always(buffer: nat, run: seq<Step>)
    ensures Inv(buffer, After(buffer, run))
  {
    if run != [] {
      Always(buffer, run[..|run| - 1]);
      ConservedNext(buffer, After(buffer, run[..|run| - 1]), run[|run| - 1]);
      ThreadsOkNext(buffer, After(buffer, run[..|run| - 1]), run[|run| - 1]);
    }
  }

  /** An unbuffered `enqueue` returns only once its own item was taken, or the queue closed. */
  lemma SentMeansTaken(run: seq<Step>, t: nat)
    requires t in After(0, run).threads && After(0, run).threads[t].Sent?
    ensures var s := After(0, run);
      s.closed || (s.threads[t].ticket < |s.delivered| && s.delivered[s.threads[t].ticket] == s.threads[t].item)
  {
    Always(0, run);
  }

  lemma ClosedStep(buffer: nat, s: State, step: Step)
    requires s.closed
    ensures Next(buffer, s, step).closed && Next(buffer, s, step).accepted == s.accepted
    ensures !step.TryDequeue? ==> Next(buffer, s, step).delivered == s.delivered
  {
  }

  /** After closing, no item is accepted, and none is delivered except by `try_dequeue`. */
  lemma {:induction false} ClosedIsFinal(buffer: nat, run: seq<Step>, more: seq<Step>)
    requires After(buffer, run).closed
    ensures After(buffer, run + more).closed && After(buffer, run + more).accepted == After(buffer, run).accepted
    ensures TryDequeue !in more ==> After(buffer, run + more).delivered == After(buffer, run).delivered
  {
    if more == [] {
      assert run + more == run;
    } else {
      var n := |more| - 1;
      assert (run + more)[..|run + more| - 1] == run + more[..n];
      ClosedIsFinal(buffer, run, more[..n]);
      ClosedStep(buffer, After(buffer, run + more[..n]), more[n]);
    }
  }

  // ----- wake-ups -----

  /** Whoever sleeps has to, or is about to be woken by the call that closed the queue. */
  predicate SleepOk(buffer: nat, queue: seq<Item>, announced: bool, th: Thread) {
    match th
    case OfferAsleep(item) => !Room(buffer, queue) && !announced
    case HandAsleep(ticket, item) => queue != [] && !announced
    case TakeAsleep => queue == [] && !announced
    case _ => true
  }

  predicate SleepersOk(buffer: nat, s: State) {
    && (s.announced ==> s.closed)
    && forall t :: t in s.threads ==> SleepOk(buffer, s.queue, s.announced, s.threads[t])
  }

  lemma SleepersNext(buffer: nat, s: State, step: Step)
    requires SleepersOk(buffer, s) && !step.TryDequeue?
    ensures SleepersOk(buffer, Next(buffer, s, step))
  {
    var s' := Next(buffer, s, step);
    forall t | t in s'.threads ensures SleepOk(buffer, s'.queue, s'.announced, s'.threads[t]) {
      assert t in s.threads ==> SleepOk(buffer, s.queue, s.announced, s.threads[t]);
    }
  }

  /** No wake-up is lost between `enqueue`, `dequeue` and `close`. */
  lemma {:induction false} NoLostWakeup(buffer: nat, run: seq<Step>)
    requires TryDequeue !in run
    ensures SleepersOk(buffer, After(buffer, run))
  {
    if run != [] {
      NoLostWakeup(buffer, run[..|run| - 1]);
      SleepersNext(buffer, After(buffer, run[..|run| - 1]), run[|run| - 1]);
    }
  }

  /** So a producer and a consumer never both sleep. */
  lemma NeverBothAsleep(buffer: nat, run: seq<Step>, p: nat, c: nat)
    requires TryDequeue !in run && p in After(buffer, run).threads && c in After(buffer, run).threads
    requires After(buffer, run).threads[p].OfferAsleep? || After(buffer, run).threads[p].HandAsleep?
    ensures !After(buffer, run).threads[c].TakeAsleep?
  {
    NoLostWakeup(buffer, run);
    var s := After(buffer, run);
    assert SleepOk(buffer, s.queue, s.announced, s.threads[p]) && SleepOk(buffer, s.queue, s.announced, s.threads[c]);
  }

  lemma Extend(buffer: nat, run: seq<Step>, step: Step)
    ensures After(buffer, run + [step]) == Next(buffer, After(buffer, run), step)
  {
    assert (run + [step])[..|run|] == run;
  }

  // ----- the bound is reached, and the queue empties -----

  /** As many producers as there is room for, one after the other, each with its item. With a
      buffer none of them has to wait. */
  lemma {:induction false} FillsUp(buffer: nat, item: Item, n: nat) returns (run: seq<Step>)
    requires n <= Occupancy(buffer)
    ensures var s := After(buffer, run);
      && |s.queue| == n && !s.closed && (forall t :: t in s.threads ==> t < n)
      && (buffer > 0 ==> forall t :: 0 <= t < n ==> t in s.threads && s.threads[t].Sent?)
    decreases n
  {
    run := [];
    if n > 0 {
      var before := FillsUp(buffer, item, n - 1);
      Extend(buffer, before, CallEnqueue(n - 1, item));
      Extend(buffer, before + [CallEnqueue(n - 1, item)], Proceed(n - 1));
      OfferExactly(buffer, After(buffer, before).queue, false);
      run := before + [CallEnqueue(n - 1, item)] + [Proceed(n - 1)];
    }
  }

  /** For every buffer size some run fills the queue up to its bound. */
  lemma BoundIsReached(buffer: nat, item: Item)
    ensures exists run :: |After(buffer, run).queue| == Occupancy(buffer)
  {
    var run := FillsUp(buffer, item, Occupancy(buffer));
    assert |After(buffer, run).queue| == Occupancy(buffer);
  }

  /** All that was queued has been delivered, in order. */
  predicate Drained(s: State, s': State) {
    s'.queue == [] && s'.delivered == s.delivered + s.queue && !s'.closed
  }

  lemma DrainedOn(s: State, s1: State, s2: State)
    requires s.queue != [] && s1.queue == s.queue[1..] && s1.delivered == s.delivered + [s.queue[0]]
    requires Drained(s1, s2)
    ensures Drained(s, s2)
  {
    assert s.delivered + [s.queue[0]] + s.queue[1..] == s.delivered + s.queue;
  }

  /** From every state of an open queue, an idle thread can take all that is queued, in order. */
  lemma {:induction false} CanDrain(buffer: nat, run: seq<Step>, t: nat) returns (more: seq<Step>)
    requires !After(buffer, run).closed && !Busy(At(After(buffer, run).threads, t))
    ensures Drained(After(buffer, run), After(buffer, run + more))
    decreases |After(buffer, run).queue|
  {
    if After(buffer, run).queue == [] {
      more := [];
      assert run + more == run;
    } else {
      var one := TakesOne(buffer, run, t);
      var rest := CanDrain(buffer, run + one, t);
      more := one + rest;
      assert run + one + rest == run + more;
      DrainedOn(After(buffer, run), After(buffer, run + one), After(buffer, run + more));
    }
  }

  lemma TakesOne(buffer: nat, run: seq<Step>, t: nat) returns (one: seq<Step>)
    requires var s := After(buffer, run); !s.closed && s.queue != [] && !Busy(At(s.threads, t))
    ensures var s, s' := After(buffer, run), After(buffer, run + one);
      && s'.queue == s.queue[1..] && s'.delivered == s.delivered + [s.queue[0]] && !s'.closed
      && At(s'.threads, t) == Took(s.queue[0])
  {
    one := [CallDequeue(t), Proceed(t)];
    Extend(buffer, run, CallDequeue(t));
    Extend(buffer, run + [CallDequeue(t)], Proceed(t));
    assert run + [CallDequeue(t)] + [Proceed(t)] == run + one;
  }

  /** Closing releases everyone: once it is announced nobody sleeps, and every call under way ends
      with its next stretch. */
  lemma CloseReleases(buffer: nat, run: seq<Step>, t: nat)
    requires After(buffer, run).closed && t in After(buffer, run).threads
    ensures var s := Next(buffer, After(buffer, run), Announce);
      t in s.threads && !Busy(At(Next(buffer, s, Proceed(t)).threads, t))
  {
  }

  /** `try_dequeue` wakes nobody: it can leave a producer asleep that has room. */
  lemma TryDequeueLosesWakeup(item: Item)
    ensures exists run, t :: At(After(1, run).threads, t).OfferAsleep? && After(1, run).queue == []
  {
    var full := FillsUp(1, item, 1);
    var waiting := full + [CallEnqueue(1, item), Proceed(1)];
    FullMakesWait(1, full, 1, item);
    Extend(1, waiting, TryDequeue);
    assert At(After(1, waiting + [TryDequeue]).threads, 1) == OfferAsleep(item);
  }

  lemma FullMakesWait(buffer: nat, run: seq<Step>, t: nat, item: Item)
    requires var s := After(buffer, run); !s.closed && !Room(buffer, s.queue) && t !in s.threads
    ensures var s, s' := After(buffer, run), After(buffer, run + [CallEnqueue(t, item), Proceed(t)]);
      s' == s.(threads := s.threads[t := OfferAsleep(item)])
  {
    Extend(buffer, run, CallEnqueue(t, item));
    Extend(buffer, run + [CallEnqueue(t, item)], Proceed(t));
    assert run + [CallEnqueue(t, item)] + [Proceed(t)] == run + [CallEnqueue(t, item), Proceed(t)];
  }
}
