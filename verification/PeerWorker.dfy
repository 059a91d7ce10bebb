/** The handshake between the thread that runs a leader's rounds and the worker thread of one peer
    (src/raft.cpp:225-257, inc/rafty/impl/raft.ipp:96-125). All flags are read and written under
    the worker's mutex, so one lock-holding stretch of a thread is one step. Both threads wait on
    the same condition variable, which `notify_one` signals: it wakes one sleeper, if there is any.
    A round posts to and then awaits each peer in turn; for one peer, being busy with the others
    shows as a pause between two steps. */
module PeerWorker {

  type Task = nat

  datatype Worker =
    | Looking         // about to test `has_task || stop`
    | Asleep
    | Holding(task: Task)
    | Finished        // the task has returned; `done` is still to be set
    | Exited

  datatype Rounds =
    | Between                     // no round in progress
    | Posting(task: Task)         // about to test `done` before posting
    | PostAsleep(task: Task)
    | Awaiting                    // about to test `done` after posting
    | AwaitAsleep

  /** `killing`: a call of `kill` has set `stop` and is about to signal. */
  datatype State = State(
    hasTask: bool, done: bool, stop: bool, task: Task, worker: Worker, rounds: Rounds,
    killing: bool, posted: seq<Task>, completed: seq<Task>)

  const START: State := State(false, true, false, 0, Looking, Between, false, [], [])

  datatype Step =
    | BeginRound(task: Task)
    | Post(wakeWorker: bool)
    | Await
    | Look
    | RunTask
    | SetDone(wakeWorker: bool)
    | SetStop
    | SignalStop(wakeWorker: bool)
    | Spurious(wakeWorker: bool)

  predicate RoundsAsleep(r: Rounds) { r.PostAsleep? || r.AwaitAsleep? }

  function WokenRounds(r: Rounds): Rounds {
    match r
    case PostAsleep(task) => Posting(task)
    case AwaitAsleep => Awaiting
    case _ => r
  }

  /** `notify_one`: if both threads sleep, either may be the one that wakes. */
  function Notify(s: State, wakeWorker: bool): State {
    if s.worker.Asleep? && (wakeWorker || !RoundsAsleep(s.rounds)) then s.(worker := Looking)
    else s.(rounds := WokenRounds(s.rounds))
  }

  function Next(s: State, step: Step): State {
    match step
    case BeginRound(task) =>
      if s.rounds.Between? then s.(rounds := Posting(task)) else s
    case Post(wakeWorker) =>
      if !s.rounds.Posting? then s
      else if !s.done then s.(rounds := PostAsleep(s.rounds.task))
      else
        Notify(s.(task := s.rounds.task, done := false, hasTask := true, rounds := Awaiting,
                  posted := s.posted + [s.rounds.task]), wakeWorker)
    case Await =>
      if !s.rounds.Awaiting? then s
      else if s.done then s.(rounds := Between)
      else s.(rounds := AwaitAsleep)
    case Look =>
      if !s.worker.Looking? then s
      else if s.stop then s.(worker := Exited)
      else if s.hasTask then s.(hasTask := false, worker := Holding(s.task))
      else s.(worker := Asleep)
    case RunTask =>
      if !s.worker.Holding? then s
      else s.(worker := Finished, completed := s.completed + [s.worker.task])
    case SetDone(wakeWorker) =>
      if !s.worker.Finished? then s else Notify(s.(done := true, worker := Looking), wakeWorker)
    case SetStop =>
      s.(stop := true, killing := true)
    case SignalStop(wakeWorker) =>
      if s.killing then Notify(s.(killing := false), wakeWorker) else s
    case Spurious(wakeWorker) =>
      if wakeWorker && s.worker.Asleep? then s.(worker := Looking)
      else if !wakeWorker then s.(rounds := WokenRounds(s.rounds))
      else s
  }

  function After(run: seq<Step>): State {
    if run == [] then START else Next(After(run[..|run| - 1]), run[|run| - 1])
  }

  // ----- what every run keeps -----

  /** The tasks that are posted and not yet completed: none or one. */
  function Outstanding(s: State): seq<Task> {
    if s.hasTask then [s.task] else if s.worker.Holding? then [s.worker.task] else []
  }

  /** `done` is false exactly while a task is pending, running or just finished. */
  predicate FlagsOk(s: State) {
    && (!s.done <==> s.hasTask || s.worker.Holding? || s.worker.Finished?)
    && !(s.hasTask && (s.worker.Holding? || s.worker.Finished?))
    && (s.worker.Exited? ==> s.stop)
  }

  /** Posted tasks complete in order, each once. */
  predicate TasksOk(s: State) {
    s.posted == s.completed + Outstanding(s)
  }

  /** A round begins and ends with nothing outstanding. */
  predicate RoundsOk(s: State) {
    s.rounds.Between? || s.rounds.Posting? || s.rounds.PostAsleep? ==> s.done
  }

  /** Whoever sleeps has nothing to do, or `kill` is about to signal: no wake-up is ever lost. */
  predicate SleepOk(s: State) {
    && (s.worker.Asleep? ==> !s.hasTask && (s.stop ==> s.killing))
    && (s.rounds.AwaitAsleep? ==> !s.done)
    && !s.rounds.PostAsleep?
  }

  predicate Inv(s: State) {
    FlagsOk(s) && TasksOk(s) && RoundsOk(s) && SleepOk(s)
  }

  lemma InvNext(s: State, step: Step)
    requires Inv(s)
    ensures Inv(Next(s, step))
  {
  }

  /** Every run, over all interleavings. */
  lemma {:induction false} Always(run: seq<Step>)
    ensures Inv(After(run))
  {
    if run != [] {
      Always(run[..|run| - 1]);
      InvNext(After(run[..|run| - 1]), run[|run| - 1]);
    }
  }

  /** The two threads never sleep at the same time, so one signal is always enough. */
  lemma NeverBothAsleep(run: seq<Step>)
    ensures !(After(run).worker.Asleep? && RoundsAsleep(After(run).rounds))
  {
    Always(run);
  }

  /** A round that ends leaves every task ever posted completed, in order and each once. */
  lemma RoundsComplete(run: seq<Step>)
    requires After(run).rounds.Between?
    ensures After(run).completed == After(run).posted
  {
    Always(run);
    assert After(run).completed + [] == After(run).completed;
  }

  /** The worker's share of a round, then the test that ends it. */
  function Complete(s: State): State {
    Next(Next(Next(Next(s, Look), RunTask), SetDone(false)), Await)
  }

  /** Neither side blocks the other: in every reachable state, a posted round can be completed in
      four steps, except exactly when the worker was told to stop with the task still pending. */
  lemma NeverStuck(run: seq<Step>)
    requires After(run).rounds.Awaiting? || After(run).rounds.AwaitAsleep?
    ensures Complete(After(run)).rounds.Between? <==> !(After(run).stop && After(run).hasTask)
  {
    Always(run);
  }

  /** What stopping can do: once the worker is told to stop with a task pending, the round never
      ends. */
  lemma {:induction false} Stranded(run: seq<Step>, more: seq<Step>)
    requires After(run).stop && After(run).hasTask
    ensures After(run + more).stop && After(run + more).hasTask
    ensures !After(run + more).rounds.Between?
  {
    Always(run + more);
    if more == [] {
      assert run + more == run;
    } else {
      var n := |more| - 1;
      assert (run + more)[..|run + more| - 1] == run + more[..n];
      Stranded(run, more[..n]);
      Always(run + more[..n]);
    }
  }

  /** A worker told to stop ends: once signalled, it needs no more than the rest of its own task. */
  lemma StopEnds(run: seq<Step>, wakeWorker: bool)
    requires After(run).stop
    ensures var s := Next(After(run), SignalStop(wakeWorker));
      !s.killing && Next(Next(Next(s, RunTask), SetDone(wakeWorker)), Look).worker.Exited?
  {
    Always(run);
  }

  lemma StopCanStrand()
    ensures exists run :: After(run).stop && After(run).hasTask
  {
    var run := [BeginRound(7), Post(true), SetStop];
    assert run[..2] == [BeginRound(7), Post(true)] && run[..2][..1] == [BeginRound(7)];
    assert After([BeginRound(7)]).rounds == Posting(7);
    assert After(run).stop && After(run).hasTask;
  }
}
