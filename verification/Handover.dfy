/** How applied entries reach the ready queue. A leader takes the indices to apply under its lock
    but enqueues the results after releasing it (src/raft.cpp:302-334), while the AppendEntries
    handler enqueues under the lock (src/raft.cpp:387-396). The two can interleave. */
module Handover {

  /** `held` are results that the leader's thread has taken but not yet enqueued. */
  datatype State = State(lastApplied: nat, held: seq<nat>, enqueued: seq<nat>)

  datatype Step =
    | TakeBatch(commit: nat)   // end of a round: take everything up to the commit index
    | EnqueueOne               // the leader's thread enqueues its next result
    | HandlerApplies(commit: nat)

  const START: State := State(0, [], [])

  /** The indices after `from`, up to `upTo`. */
  function Indices(from: nat, upTo: nat): (s: seq<nat>)
    ensures |s| == if from <= upTo then upTo - from else 0
    ensures forall k :: 0 <= k < |s| ==> s[k] == from + 1 + k
  {
    if upTo <= from then [] else Indices(from, upTo - 1) + [upTo]
  }

  function Max(a: nat, b: nat): nat { if a <= b then b else a }

  /** One thread runs the rounds, so a batch is taken only when the previous one is enqueued. */
  function Next(s: State, step: Step): State {
    match step
    case TakeBatch(commit) =>
      if s.held != [] then s
      else State(Max(s.lastApplied, commit), Indices(s.lastApplied, commit), s.enqueued)
    case EnqueueOne =>
      if s.held == [] then s else State(s.lastApplied, s.held[1..], s.enqueued + [s.held[0]])
    case HandlerApplies(commit) =>
      State(Max(s.lastApplied, commit), s.held, s.enqueued + Indices(s.lastApplied, commit))
  }

  function After(run: seq<Step>): State {
    if run == [] then START else Next(After(run[..|run| - 1]), run[|run| - 1])
  }

  // ----- nothing is lost and nothing comes twice -----

  lemma Splits(from: nat, middle: nat, upTo: nat)
    requires from <= middle <= upTo
    ensures Indices(from, upTo) == Indices(from, middle) + Indices(middle, upTo)
  {
  }

  predicate AllOnce(s: State) {
    multiset(s.enqueued) + multiset(s.held) == multiset(Indices(0, s.lastApplied))
  }

  /** Every run: the results enqueued and held are the indices applied so far, each once. */
  lemma {:induction false} EachOnce(run: seq<Step>)
    ensures AllOnce(After(run))
  {
    if run != [] {
      EachOnce(run[..|run| - 1]);
      OnceNext(After(run[..|run| - 1]), run[|run| - 1]);
    }
  }

  lemma OnceNext(s: State, step: Step)
    requires AllOnce(s)
    ensures AllOnce(Next(s, step))
  {
    match step
    case TakeBatch(commit) => OnceMore(s, commit);
    case EnqueueOne => MoveOne(s.enqueued, s.held);
    case HandlerApplies(commit) => OnceMore(s, commit);
  }

  lemma MoveOne(a: seq<nat>, b: seq<nat>)
    ensures b != [] ==> multiset(a + [b[0]]) + multiset(b[1..]) == multiset(a) + multiset(b)
  {
    if b != [] {
      assert b == [b[0]] + b[1..];
    }
  }

  lemma OnceMore(s: State, commit: nat)
    requires AllOnce(s)
    ensures multiset(s.enqueued) + multiset(s.held) + multiset(Indices(s.lastApplied, commit))
            == multiset(Indices(0, Max(s.lastApplied, commit)))
  {
    if commit > s.lastApplied {
      Splits(0, s.lastApplied, commit);
    }
  }

  /** Everything committed is applied: after any run, the last index applied is the largest that
      the handler, or the leader's thread while it held nothing, was given. */
  lemma {:induction false} AppliesAll(run: seq<Step>, k: nat)
    requires k < |run|
    ensures run[k].HandlerApplies? ==> run[k].commit <= After(run).lastApplied
    ensures run[k].TakeBatch? && After(run[..k]).held == [] ==> run[k].commit <= After(run).lastApplied
  {
    var n := |run| - 1;
    if k < n {
      AppliesAll(run[..n], k);
      assert run[..n][..k] == run[..k];
    }
  }

  lemma {:induction false} AppliesNoMore(run: seq<Step>)
    ensures After(run).lastApplied == 0 || exists k ::
      0 <= k < |run| && !run[k].EnqueueOne? && run[k].commit == After(run).lastApplied
  {
    if run != [] {
      var n := |run| - 1;
      AppliesNoMore(run[..n]);
      if After(run).lastApplied == After(run[..n]).lastApplied != 0 {
        var k :| 0 <= k < n && !run[..n][k].EnqueueOne? && run[..n][k].commit == After(run[..n]).lastApplied;
        assert run[k] == run[..n][k];
      } else if After(run).lastApplied != 0 {
        assert run[n].commit == After(run).lastApplied;
      }
    }
  }

  // ----- the order -----

  /** The handler applies something while the leader's thread still holds results. */
  predicate Cuts(s: State, step: Step) {
    step.HandlerApplies? && step.commit > s.lastApplied && s.held != []
  }

  predicate Undisturbed(run: seq<Step>) {
    run == [] || (Undisturbed(run[..|run| - 1]) && !Cuts(After(run[..|run| - 1]), run[|run| - 1]))
  }

  predicate Ordered(s: State) {
    s.enqueued + s.held == Indices(0, s.lastApplied)
  }

  predicate Inverted(s: seq<nat>, p: int, q: int) {
    0 <= p < q < |s| && s[p] > s[q]
  }

  ghost predicate Disordered(s: State) {
    exists p, q :: Inverted(s.enqueued + s.held, p, q)
  }

  lemma OrderedNext(s: State, step: Step)
    requires Ordered(s) && !Cuts(s, step)
    ensures Ordered(Next(s, step))
  {
    match step
    case TakeBatch(commit) =>
      if s.held == [] {
        assert s.enqueued + s.held == s.enqueued;
        Splits(0, s.lastApplied, Max(s.lastApplied, commit));
      }
    case EnqueueOne =>
      if s.held != [] {
        assert s.enqueued + [s.held[0]] + s.held[1..] == s.enqueued + s.held;
      }
    case HandlerApplies(commit) =>
      Splits(0, s.lastApplied, Max(s.lastApplied, commit));
      if commit > s.lastApplied {
        assert s.enqueued + s.held == s.enqueued;
        assert s.enqueued + Indices(s.lastApplied, commit) + s.held == s.enqueued + Indices(s.lastApplied, commit);
      } else {
        assert s.enqueued + Indices(s.lastApplied, commit) == s.enqueued;
      }
  }

  /** A cut puts a larger index before the ones that are held. */
  lemma CutDisorders(s: State, step: Step)
    requires Ordered(s) && Cuts(s, step)
    ensures Disordered(Next(s, step))
  {
    var t := Next(s, step);
    var p, q := |s.enqueued|, |t.enqueued|;
    assert (t.enqueued + t.held)[p] == Indices(s.lastApplied, step.commit)[0] == s.lastApplied + 1;
    assert (t.enqueued + t.held)[q] == s.held[0] == (s.enqueued + s.held)[p];
    assert Inverted(t.enqueued + t.held, p, q);
  }

  lemma DisorderStays(s: State, step: Step)
    requires Disordered(s)
    ensures Disordered(Next(s, step))
  {
    var t := Next(s, step);
    var p, q :| Inverted(s.enqueued + s.held, p, q);
    if step.HandlerApplies? {
      var d, n := |t.enqueued| - |s.enqueued|, |s.enqueued|;
      var p', q' := if p < n then p else p + d, if q < n then q else q + d;
      assert Inverted(t.enqueued + t.held, p', q');
    } else {
      assert Inverted(t.enqueued + t.held, p, q);
    }
  }

  /** The queue receives the entries in the order of their indices exactly when no handler
      applies entries while the leader's thread still holds some. */
  lemma {:induction false} OrderedExactly(run: seq<Step>)
    ensures Ordered(After(run)) <==> Undisturbed(run)
    ensures Disordered(After(run)) <==> !Undisturbed(run)
  {
    if run == [] {
    } else {
      var s, step := After(run[..|run| - 1]), run[|run| - 1];
      OrderedExactly(run[..|run| - 1]);
      if !Undisturbed(run[..|run| - 1]) {
        DisorderStays(s, step);
      } else if Cuts(s, step) {
        CutDisorders(s, step);
      } else {
        OrderedNext(s, step);
      }
      NotBoth(After(run));
    }
  }

  lemma NotBoth(s: State)
    ensures !(Ordered(s) && Disordered(s))
  {
  }

  /** Such a run: a deposed leader holds index 1 while the handler applies index 2. */
  lemma OutOfOrder()
    ensures After([TakeBatch(1), HandlerApplies(2), EnqueueOne]).enqueued == [2, 1]
  {
    var run := [TakeBatch(1), HandlerApplies(2), EnqueueOne];
    assert run[..2] == [TakeBatch(1), HandlerApplies(2)] && run[..2][..1] == [TakeBatch(1)];
    assert Indices(0, 1) == [1] && Indices(1, 2) == [2];
    assert After([TakeBatch(1)]) == State(1, [1], []);
  }
}
