/** Every run ends: each step decreases a measure, re-entrant activations of `schedule()`
    included, and until the run is quiescent some thread can step. */
module Termination {
  import opened Lifecycle
  import opened Scheduling
  import opened Safety
  import opened Control

  // ---- The measure -----------------------------------------------------------------

  /** What is left to happen to a task. */
  function Weight(s: State, t: TaskId): nat {
    if t !in s.jobs then (if t in s.status && s.status[t].Pending? then 8 else 7)
    else match s.jobs[t].stage
      case Queued => 6
      case Working => 5
      case Settled => 4
      case Resolved(_) => if s.jobs[t].hook.Entered? then 2 else 3
  }

  function Total(p: Plan, s: State, k: nat): nat
    requires k <= |p.order|
  {
    if k == 0 then 0 else Total(p, s, k - 1) + Weight(s, p.order[k - 1])
  }

  /** What is left of an activation if nothing changes any more. */
  function Cost(n: nat, f: Frame): nat {
    match f
    case Scan(i, changed) => (if i <= n then n - i else 0) + (if changed then n + 3 else 2)
    case Attach(i, _) => (if i < n then n - i - 1 else 0) + n + 4
    case Probe => 1
  }

  function Depth(n: nat, stack: seq<Frame>): nat {
    if stack == [] then 0 else Depth(n, stack[..|stack| - 1]) + Cost(n, stack[|stack| - 1])
  }

  function Factor(p: Plan): nat {
    3 * |p.order| + 10
  }

  function Measure(p: Plan, s: State): nat {
    Factor(p) * Total(p, s, |p.order|) + Depth(|p.order|, s.stack) + if s.closed then 0 else 1
  }

  lemma {:induction false} TotalMonotone(p: Plan, s: State, s': State, k: nat)
    requires k <= |p.order|
    requires forall t {:trigger Weight(s', t)} :: t in p.order ==> Weight(s', t) <= Weight(s, t)
    ensures Total(p, s', k) <= Total(p, s, k)
    ensures (exists j :: 0 <= j < k && Weight(s', p.order[j]) < Weight(s, p.order[j]))
            ==> Total(p, s', k) < Total(p, s, k)
  {
    if k > 0 {
      TotalMonotone(p, s, s', k - 1);
      assert p.order[k - 1] in p.order;
    }
  }

  lemma Multiply(f: nat, a: nat, b: nat)
    requires a <= b
    ensures f * a <= f * b
    ensures a < b ==> f * a + f <= f * b
  {
    assert f * b == f * a + f * (b - a);
    if a < b { assert f * (b - a) == f + f * (b - a - 1); }
  }

  /** A task moves on; the activations may grow by less than one pass each way. */
  lemma TaskMoves(p: Plan, s: State, s': State, x: TaskId)
    requires x in p.order && Weight(s', x) < Weight(s, x)
    requires forall t {:trigger Weight(s', t)} :: t in p.order ==> Weight(s', t) <= Weight(s, t)
    requires Depth(|p.order|, s'.stack) <= Depth(|p.order|, s.stack) + 2 * |p.order| + 5
    requires s'.closed == s.closed
    ensures Measure(p, s') < Measure(p, s)
  {
    hide Weight, Total, Depth;
    var j :| 0 <= j < |p.order| && p.order[j] == x;
    TotalMonotone(p, s, s', |p.order|);
    Multiply(Factor(p), Total(p, s', |p.order|), Total(p, s, |p.order|));
  }

  /** No task moves, but the activations shrink. */
  lemma ControlMoves(p: Plan, s: State, s': State)
    requires forall t {:trigger Weight(s', t)} :: t in p.order ==> Weight(s', t) <= Weight(s, t)
    requires Depth(|p.order|, s'.stack) < Depth(|p.order|, s.stack)
    requires s'.closed == s.closed
    ensures Measure(p, s') < Measure(p, s)
  {
    hide Weight, Total, Depth;
    TotalMonotone(p, s, s', |p.order|);
    Multiply(Factor(p), Total(p, s', |p.order|), Total(p, s, |p.order|));
  }

  lemma DepthOfTop(n: nat, stack: seq<Frame>, f: Frame)
    requires stack != []
    ensures Depth(n, stack) == Depth(n, stack[..|stack| - 1]) + Cost(n, stack[|stack| - 1])
    ensures Depth(n, stack[..|stack| - 1] + [f]) == Depth(n, stack[..|stack| - 1]) + Cost(n, f)
    ensures Depth(n, stack + [f]) == Depth(n, stack) + Cost(n, f)
  {
    assert (stack[..|stack| - 1] + [f])[..|stack| - 1] == stack[..|stack| - 1];
    assert (stack + [f])[..|stack|] == stack;
  }

  // ---- Every step decreases it -------------------------------------------------------

  lemma RetopDepth(n: nat, s: State, f: Frame)
    requires s.stack != []
    ensures Depth(n, Retop(s, f).stack) + Cost(n, Top(s)) == Depth(n, s.stack) + Cost(n, f)
    ensures Depth(n, Pop(s).stack) + Cost(n, Top(s)) == Depth(n, s.stack)
  {
    DepthOfTop(n, s.stack, f);
  }

  /** The weights of tasks do not depend on where the lock holder stands. */
  lemma SameWeights(p: Plan, s: State, s': State)
    requires s'.status == s.status && s'.jobs == s.jobs
    ensures forall t {:trigger Weight(s', t)} :: t in p.order ==> Weight(s', t) <= Weight(s, t)
  {
  }

  lemma BlockDecreases(p: Plan, s: State, i: nat, changed: bool, t: TaskId)
    requires Fits(p, s) && s.stack != [] && Top(s) == Scan(i, changed) && i < |p.order|
    requires t == p.order[i] && t in p.deps && Blocks(p, s, t)
    ensures Measure(p, Visit(p, s, i, changed)) < Measure(p, s)
  {
    hide FateOf, Plan.Validated, Ranked, Ready, Inactive, BadParent, FirstBad, Measure, Depth;
    var s' := Visit(p, s, i, changed);
    RetopDepth(|p.order|, s, Scan(i + 1, true));
    assert s'.stack == Retop(s, Scan(i + 1, true)).stack;
    TaskMoves(p, s, s', t);
  }

  lemma SubmitDecreases(p: Plan, s: State, i: nat, changed: bool, t: TaskId)
    requires Fits(p, s) && s.stack != [] && Top(s) == Scan(i, changed) && i < |p.order|
    requires t == p.order[i] && t in p.deps && !Blocks(p, s, t) && Submits(p, s, t) && !s.closed
    ensures Measure(p, Visit(p, s, i, changed)) < Measure(p, s)
  {
    hide FateOf, Plan.Validated, Ranked, Ready, Inactive, BadParent, FirstBad, Measure, Depth, Blocks;
    var s' := Visit(p, s, i, changed);
    RetopDepth(|p.order|, s, Attach(i, t));
    assert s'.stack == Retop(s, Attach(i, t)).stack;
    TaskMoves(p, s, s', t);
  }

  lemma IdleVisitDecreases(p: Plan, s: State, i: nat, changed: bool, t: TaskId)
    requires Fits(p, s) && s.stack != [] && Top(s) == Scan(i, changed) && i < |p.order|
    requires t == p.order[i] && t in p.deps && !Blocks(p, s, t) && (Submits(p, s, t) ==> s.closed)
    ensures Measure(p, Visit(p, s, i, changed)) < Measure(p, s)
  {
    hide FateOf, Plan.Validated, Ranked, FirstBad, Measure, Depth, Blocks, Submits, Weight;
    var s' := Visit(p, s, i, changed);
    RetopDepth(|p.order|, s, Scan(i + 1, changed));
    SameWeights(p, s, s');
    ControlMoves(p, s, s');
  }

  lemma RegisterDecreases(p: Plan, s: State, i: nat, t: TaskId)
    requires Fits(p, s) && s.stack != [] && Top(s) == Attach(i, t) && i < |p.order| && t in s.jobs
    requires !Done(s, t) && !s.jobs[t].hook.Entered?
    ensures Measure(p, AttachHook(s, i, t)) < Measure(p, s)
  {
    hide FateOf, Plan.Validated, Ranked, Measure, Depth;
    var s' := AttachHook(s, i, t);
    RetopDepth(|p.order|, s, Scan(i + 1, true));
    assert s'.stack == Retop(s, Scan(i + 1, true)).stack;
    ControlMoves(p, s, s');
  }

  lemma ReenterDecreases(p: Plan, s: State, i: nat, t: TaskId)
    requires Fits(p, s) && s.stack != [] && Top(s) == Attach(i, t) && i < |p.order| && t in s.jobs
    requires t in p.order && Done(s, t) && !s.jobs[t].hook.Entered?
    ensures Measure(p, AttachHook(s, i, t)) < Measure(p, s)
  {
    hide FateOf, Plan.Validated, Ranked, Measure, Depth;
    var s1 := Retop(s, Scan(i + 1, true));
    var s' := AttachHook(s, i, t);
    RetopDepth(|p.order|, s, Scan(i + 1, true));
    DepthOfTop(|p.order|, s1.stack, Scan(0, false));
    assert s'.stack == s1.stack + [Scan(0, false)];
    TaskMoves(p, s, s', t);
  }

  lemma AttachDecreases(p: Plan, s: State)
    requires Inv(p, s) && s.stack != [] && Top(s).Attach?
    ensures Measure(p, AttachHook(s, Top(s).i, Top(s).tid)) < Measure(p, s)
  {
    hide FateOf, Plan.Validated, Ranked, TaskInv, Measure, ExitInv, Depth, AttachHook;
    var Attach(i, t) := Top(s);
    assert p.order[i] in p.order;
    if Done(s, t) { ReenterDecreases(p, s, i, t); } else { RegisterDecreases(p, s, i, t); }
  }

  /** Moving within or out of an activation touches no task. */
  lemma FramesTouchNoTask(s: State, f: Frame)
    requires s.stack != []
    ensures Retop(s, f).status == s.status && Retop(s, f).jobs == s.jobs && Retop(s, f).closed == s.closed
    ensures Pop(s).status == s.status && Pop(s).jobs == s.jobs && Pop(s).closed == s.closed
  {
  }

  lemma VerdictDecreases(p: Plan, s: State)
    requires Fits(p, s) && s.stack != [] && (Top(s).Probe? || (Top(s).Scan? && Top(s).i == |p.order|))
    ensures Measure(p, Advanced(p, s)) < Measure(p, s)
  {
    hide FateOf, Plan.Validated, Ranked, Measure, Live, AllFinished, Visit, AttachHook, Weight, Depth, Retop, Pop;
    RetopDepth(|p.order|, s, Scan(0, false));
    FramesTouchNoTask(s, Scan(0, false));
    RetopDepth(|p.order|, s, Probe);
    FramesTouchNoTask(s, Probe);
    SameWeights(p, s, Advanced(p, s));
    ControlMoves(p, s, Advanced(p, s));
  }

  lemma AdvanceDecreases(p: Plan, s: State)
    requires Inv(p, s) && s.stack != []
    ensures Measure(p, Advanced(p, s)) < Measure(p, s)
  {
    hide FateOf, Plan.Validated, Ranked, TaskInv, Measure, ExitInv, Visit, AttachHook;
    match Top(s)
    case Attach(_, _) => AttachDecreases(p, s);
    case Probe => VerdictDecreases(p, s);
    case Scan(i, changed) =>
      if i == |p.order| {
        VerdictDecreases(p, s);
      } else {
        var t := p.order[i];
        InOrder(p, s, i);
        if Blocks(p, s, t) {
          BlockDecreases(p, s, i, changed, t);
        } else if Submits(p, s, t) && !s.closed {
          SubmitDecreases(p, s, i, changed, t);
        } else {
          IdleVisitDecreases(p, s, i, changed, t);
        }
      }
  }

  /** Every step of every thread decreases the measure. */
  lemma StepDecreases(p: Plan, s: State, l: Step)
    requires Inv(p, s) && CanStep(p, s, l)
    ensures Measure(p, Next(p, s, l)) < Measure(p, s)
  {
    hide FateOf, Ranked, TaskInv, Advanced, StackInv, ExitInv, Depth, Factor, Claimed;
    match l
    case Advance => AdvanceDecreases(p, s);
    case Close => SameTotal(p, s, Next(p, s, l), |p.order|);
    case Callback(t) =>
      assert t in p.order;
      CallbackDepth(p, s);
      TaskMoves(p, s, Next(p, s, l), t);
    case _ =>
      assert l.tid in p.order;
      TaskMoves(p, s, Next(p, s, l), l.tid);
  }

  lemma CallbackDepth(p: Plan, s: State)
    requires s.stack == []
    ensures Depth(|p.order|, s.stack + [Scan(0, false)]) == |p.order| + 2
  {
    assert s.stack + [Scan(0, false)] == [Scan(0, false)];
  }

  lemma {:induction false} SameTotal(p: Plan, s: State, s': State, k: nat)
    requires k <= |p.order| && s'.jobs == s.jobs && s'.status == s.status
    ensures Total(p, s', k) == Total(p, s, k)
  {
    if k > 0 { SameTotal(p, s, s', k - 1); }
  }

  /** No run is longer than its initial measure. */
  lemma {:induction false} RunsAreBounded(p: Plan, s: State, ls: seq<Step>, s': State)
    requires Inv(p, s) && Follows(p, s, ls, s')
    ensures |ls| + Measure(p, s') <= Measure(p, s)
    decreases |ls|
  {
    hide FateOf, Measure;
    if ls != [] {
      StepKeeps(p, s, ls[0]);
      StepDecreases(p, s, ls[0]);
      RunsAreBounded(p, Next(p, s, ls[0]), ls[1..], s');
    }
  }

  // ---- Until the run is quiescent, some thread can step --------------------------------

  /** The queued task that was submitted first. */
  lemma {:induction false} FirstInQueue(s: State, j: nat) returns (y: TaskId)
    requires FlagInv(s) && j < |s.log| && s.log[j] in s.jobs && s.jobs[s.log[j]].stage.Queued?
    ensures y in s.jobs && s.jobs[y].stage.Queued? && Ahead(s, y) == {}
  {
    if i :| 0 <= i < j && s.log[i] in s.jobs && s.jobs[s.log[i]].stage.Queued? {
      y := FirstInQueue(s, i);
    } else {
      y := s.log[j];
    }
  }

  /** With the lock free and a future outstanding, some worker can move: one that holds a thread,
      or else the first in the queue. */
  lemma OutstandingCanMove(p: Plan, s: State, x: TaskId) returns (l: Step)
    requires Inv(p, s) && s.stack == [] && x in s.jobs && !s.jobs[x].hook.Entered?
    ensures CanStep(p, s, l) && !l.Advance? && !l.Close?
  {
    hide FateOf, Ranked, TaskInv, ExitInv, RefusedInv;
    var y := x;
    if s.jobs[x].stage.Queued? {
      if Busy(s) == {} {
        assert x in s.log;
        var j :| 0 <= j < |s.log| && s.log[j] == x;
        y := FirstInQueue(s, j);
        return if y in p.unhandled && s.status[y].Pending? then Reject(y) else Start(y);
      }
      y :| y in Busy(s);
    }
    l := match s.jobs[y].stage
      case Working => Settle(y)
      case Settled => Resolve(y)
      case _ => Callback(y);
  }

  /** No deadlock: in every reachable state that is not finished some thread can step. */
  lemma SomeThreadCanStep(p: Plan, s: State) returns (l: Step)
    requires Reachable(p, s) && !Quiescent(s)
    ensures CanStep(p, s, l)
  {
    ReachableInv(p, s);
    l := CanStepFrom(p, s);
  }

  lemma CanStepFrom(p: Plan, s: State) returns (l: Step)
    requires Inv(p, s) && !Quiescent(s)
    ensures CanStep(p, s, l)
  {
    hide FateOf;
    if s.stack != [] {
      l := Advance;
    } else if x :| x in s.jobs && !s.jobs[x].hook.Entered? {
      l := OutstandingCanMove(p, s, x);
    } else {
      l := Close;
    }
  }

  /** Hence a run that cannot be continued has finished, with `done` set. */
  lemma MaximalRunsFinish(p: Plan, s: State)
    requires Reachable(p, s) && forall l :: !CanStep(p, s, l)
    ensures Quiescent(s) && s.done
  {
    ReachableInv(p, s);
    if !Quiescent(s) {
      var l := SomeThreadCanStep(p, s);
    }
  }
}
