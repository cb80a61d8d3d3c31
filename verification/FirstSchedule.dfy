/** Runs in which no worker moves before the first `schedule()` has ended or come to its test
    for live futures, and what can be made of them. */
module FirstSchedule {
  import opened Lifecycle
  import opened Scheduling
  import opened Safety
  import opened Control
  import opened Confluence
  import opened Termination
  import Races

  /** Only the main thread has moved: every submitted task is still queued. */
  ghost predicate Unstarted(s: State) {
    && |s.stack| <= 1 && s.late == {} && s.errors == {} && !s.closed && s.refused == {} && !s.guard
    && (forall x {:trigger s.jobs[x]} :: x in s.jobs ==>
          (s.jobs[x].stage.Queued?
              && (s.jobs[x].hook.Registered? || (s.stack != [] && Top(s).Attach? && Top(s).tid == x))))
    && (s.stack == [] ==>
          s.done && !s.kickoff && forall t {:trigger s.status[t]} :: t in s.status ==> Finished(s, t))
    && (s.stack != [] ==> s.kickoff)
  }

  lemma Moves(s: State, f: Frame)
    requires Unstarted(s) && s.stack != [] && !Top(s).Attach? && !f.Attach?
    ensures Unstarted(Retop(s, f)) && Retop(s, f).stack == [f]
  {
    assert s.stack[..|s.stack| - 1] == [];
  }

  lemma Accepts(s: State, i: nat, t: TaskId)
    requires Unstarted(s) && s.stack != [] && !Top(s).Attach?
    ensures Unstarted(Retop(s, Attach(i, t)).(jobs := s.jobs[t := Job(Queued, Unregistered)], log := s.log + [t]))
  {
    var s' := Retop(s, Attach(i, t)).(jobs := s.jobs[t := Job(Queued, Unregistered)], log := s.log + [t]);
    assert s.stack[..|s.stack| - 1] == [];
    assert s'.stack == [Attach(i, t)] && Top(s') == Attach(i, t);
  }

  lemma Registers(s: State, i: nat, t: TaskId)
    requires Unstarted(s) && s.stack != [] && Top(s) == Attach(i, t) && t in s.jobs
    ensures Unstarted(AttachHook(s, i, t))
  {
    assert s.stack[..|s.stack| - 1] == [];
    assert !Done(s, t);
    assert AttachHook(s, i, t).stack == [Scan(i + 1, true)];
  }

  lemma VisitsUnstarted(p: Plan, s: State, i: nat, changed: bool)
    requires Fits(p, s) && Unstarted(s) && s.stack != [] && Top(s) == Scan(i, changed) && i < |p.order|
    ensures Unstarted(Visit(p, s, i, changed))
  {
    hide FateOf, Plan.Validated, Ranked, Submits, Blocks, FirstBad, Unstarted;
    var t := p.order[i];
    InOrder(p, s, i);
    Moves(s, Scan(i + 1, true));
    Moves(s, Scan(i + 1, changed));
    Accepts(s, i, t);
    IsOpen(s);
    if Blocks(p, s, t) {
      var s' := Visit(p, s, i, changed);
      OtherFields(Retop(s, Scan(i + 1, true)), s'.status, s'.blame);
    }
  }

  lemma IsOpen(s: State)
    requires Unstarted(s)
    ensures !s.closed
  {
  }

  lemma OtherFields(s: State, status: map<TaskId, Status>, blame: map<TaskId, TaskId>)
    requires Unstarted(s) && s.stack != []
    ensures Unstarted(s.(status := status, blame := blame))
  {
    var s' := s.(status := status, blame := blame);
    assert Top(s') == Top(s);
  }

  lemma Finishes(s: State)
    requires Unstarted(s) && s.stack != [] && !Top(s).Attach? && forall t :: t in s.status ==> Finished(s, t)
    ensures Unstarted(Pop(s).(done := true))
  {
  }

  lemma AdvancesUnstarted(p: Plan, s: State)
    requires Fits(p, s) && Unstarted(s) && s.stack != [] && !Top(s).Probe?
    ensures Unstarted(Advanced(p, s))
  {
    hide FateOf, Plan.Validated, Ranked, Visit, Unstarted, Finished, Retop, Pop, AttachHook;
    match Top(s) {
      case Scan(i, changed) =>
        if i < |p.order| {
          VisitsUnstarted(p, s, i, changed);
        } else {
          Moves(s, Scan(0, false));
          Moves(s, Probe);
          if AllFinished(p, s) { Finishes(s); }
        }
      case Attach(i, t) => Registers(s, i, t);
    }
  }

  lemma {:induction false} FirstEnds(p: Plan, s: State) returns (s': State)
    requires Reachable(p, s) && Unstarted(s)
    ensures Reachable(p, s') && Unstarted(s') && (s'.stack == [] || s'.stack == [Probe])
    decreases Measure(p, s)
  {
    hide FateOf, Advanced, Reachable, Measure;
    ReachableInv(p, s);
    if s.stack == [] || Top(s).Probe? {
      s' := s;
    } else {
      AdvancesUnstarted(p, s);
      ReachStep(p, s, Advance);
      StepDecreases(p, s, Advance);
      s' := FirstEnds(p, Next(p, s, Advance));
    }
  }

  /** The first `schedule()` can run to its end, or to its test, before any worker moves. */
  lemma FirstScheduleEnds(p: Plan) returns (s: State)
    requires p.Validated()
    ensures Reachable(p, s) && Unstarted(s) && (s.stack == [] || s.stack == [Probe])
  {
    hide FateOf, Measure;
    InitInv(p);
    assert Follows(p, Init(p), [], Init(p));
    s := FirstEnds(p, Init(p));
  }

  // ---- Workers finish between the pass and the test -----------------------------------------

  ghost predicate Draining(s: State) {
    && s.stack == [Probe] && s.kickoff && !s.closed
    && forall x {:trigger s.jobs[x]} :: x in s.jobs ==>
         s.jobs[x].hook.Registered? && (s.jobs[x].stage.Queued? || s.jobs[x].stage.Resolved?)
  }

  function QueuedJobs(s: State): set<TaskId> {
    set x | x in s.jobs && s.jobs[x].stage.Queued?
  }

  lemma ThreadIsFree(p: Plan, s: State, x: TaskId)
    requires FlagInv(s) && (s.stack != [] ==> s.kickoff) && |s.jobs| <= p.workers
    requires x in s.jobs && s.jobs[x].stage.Queued?
    ensures Claimed(s, x) < p.workers
  {
    assert Busy(s) + Ahead(s, x) <= s.jobs.Keys - {x};
    Smaller(Busy(s) + Ahead(s, x), s.jobs.Keys - {x});
    assert Busy(s) !! Ahead(s, x);
    assert |s.jobs.Keys| == |s.jobs|;
  }

  lemma Smaller(a: set<TaskId>, b: set<TaskId>)
    requires a <= b
    ensures |a| <= |b|
  {
    assert b == a + (b - a);
  }

  lemma ReachableFits(p: Plan, s: State)
    requires Reachable(p, s)
    ensures s.jobs.Keys <= p.deps.Keys && Fits(p, s)
  {
  }

  /** A step of a worker on `x`. */
  ghost predicate Worked(s: State, x: TaskId, stage: Stage, s': State) {
    && x in s.jobs && s'.jobs == s.jobs[x := s.jobs[x].(stage := stage)]
    && s'.stack == s.stack && s'.closed == s.closed && s'.kickoff == s.kickoff && s'.refused == s.refused
  }

  lemma WorkerStep(p: Plan, s: State, x: TaskId, l: Step, stage: Stage) returns (s': State)
    requires Reachable(p, s) && CanStep(p, s, l) && x in s.jobs
    requires (l == Start(x) && stage == Working) || (l == Reject(x) && stage == Settled)
        || (l == Settle(x) && stage == Settled)
    ensures Reachable(p, s') && Worked(s, x, stage, s') && Measure(p, s') < Measure(p, s)
  {
    hide FateOf, Plan.Validated, Ranked, Claimed, Upstream, Marked, Reachable, Measure, Inv;
    s' := Next(p, s, l);
    ReachStep(p, s, l);
    ReachableInv(p, s);
    StepDecreases(p, s, l);
  }

  lemma ResolveWorks(p: Plan, s: State, x: TaskId) returns (s': State, raised: bool)
    requires Reachable(p, s) && CanStep(p, s, Resolve(x))
    ensures Reachable(p, s') && x in s.jobs && Worked(s, x, Resolved(raised), s') && Measure(p, s') < Measure(p, s)
  {
    hide FateOf, Plan.Validated, Ranked, Marked, Reachable, Measure, Inv;
    raised := !s.status[x].Succeeded?;
    s' := Next(p, s, Resolve(x));
    ReachStep(p, s, Resolve(x));
    ReachableInv(p, s);
    StepDecreases(p, s, Resolve(x));
  }

  /** A worker takes `x` from the queue to its resolved future, whatever its outcome. */
  lemma WorkerFinishes(p: Plan, s: State, x: TaskId) returns (s': State, raised: bool)
    requires Reachable(p, s) && x in s.jobs && s.jobs[x].stage.Queued? && Claimed(s, x) < p.workers
    ensures Reachable(p, s') && Worked(s, x, Resolved(raised), s') && Measure(p, s') < Measure(p, s)
  {
    hide FateOf, Reachable, Claimed, Measure, Plan.Validated, Ranked;
    ReachableFits(p, s);
    if x in p.unhandled && s.status[x].Pending? {
      var s1 := WorkerStep(p, s, x, Reject(x), Settled);
      ReachableFits(p, s1);
      s', raised := ResolveWorks(p, s1, x);
      assert s'.jobs == s.jobs[x := s.jobs[x].(stage := Resolved(raised))];
    } else {
      var s0 := WorkerStep(p, s, x, Start(x), Working);
      s', raised := HandlerFinishes(p, s0, x);
      assert s'.jobs == s.jobs[x := s.jobs[x].(stage := Resolved(raised))];
    }
  }

  /** A worker takes `x` from its handler to its resolved future. */
  lemma HandlerFinishes(p: Plan, s: State, x: TaskId) returns (s': State, raised: bool)
    requires Reachable(p, s) && x in s.jobs && s.jobs[x].stage.Working?
    ensures Reachable(p, s') && Worked(s, x, Resolved(raised), s') && Measure(p, s') < Measure(p, s)
  {
    hide FateOf, Reachable, Claimed, Measure, Plan.Validated, Ranked;
    ReachableFits(p, s);
    var s1 := WorkerStep(p, s, x, Settle(x), Settled);
    ReachableFits(p, s1);
    s', raised := ResolveWorks(p, s1, x);
    assert s'.jobs == s.jobs[x := s.jobs[x].(stage := Resolved(raised))];
  }

  lemma {:induction false} Drained(p: Plan, s: State) returns (s': State)
    requires Reachable(p, s) && Draining(s) && |s.jobs| <= p.workers
    ensures Reachable(p, s') && Draining(s') && !Live(s') && s'.jobs.Keys == s.jobs.Keys
    decreases QueuedJobs(s)
  {
    hide FateOf, Reachable, Claimed;
    ReachableFits(p, s);
    if x :| x in s.jobs && s.jobs[x].stage.Queued? {
      ReachableInv(p, s);
      ThreadIsFree(p, s, x);
      var s1, raised := WorkerFinishes(p, s, x);
      assert QueuedJobs(s1) <= QueuedJobs(s) && x in QueuedJobs(s) && x !in QueuedJobs(s1);
      s' := Drained(p, s1);
    } else {
      s' := s;
    }
  }

  /** If every task that the first pass has submitted finds a thread, the guard fires after that
      pass if it comes to its test at all. */
  lemma GuardFires(p: Plan, s: State) returns (s': State)
    requires Reachable(p, s) && Unstarted(s) && s.stack == [Probe] && |s.jobs| <= p.workers
    ensures Reachable(p, s') && s'.guard && s'.done && !s'.closed && !s'.kickoff && s'.jobs.Keys == s.jobs.Keys
  {
    hide FateOf, Reachable;
    var s1 := Drained(p, s);
    Races.FireStep(p, s1);
    s' := s1.(stack := [], kickoff := false, done := true, guard := true);
  }

  // ---- To the end of the run ------------------------------------------------------------------

  /** A closed pool accepts nothing more. */
  lemma ClosedVisit(p: Plan, s: State, i: nat, changed: bool)
    requires Fits(p, s) && s.stack != [] && i < |p.order| && p.order[i] in p.deps && s.closed
    ensures Visit(p, s, i, changed).closed && Visit(p, s, i, changed).jobs.Keys == s.jobs.Keys
  {
    hide FateOf, Plan.Validated, Ranked, Submits, Blocks, FirstBad, Pop;
    PopFields(s);
  }

  lemma ClosedAdvance(p: Plan, s: State)
    requires Fits(p, s) && s.stack != [] && s.closed
        && (Top(s).Scan? && Top(s).i < |p.order| ==> p.order[Top(s).i] in p.deps)
    ensures Advanced(p, s).closed && Advanced(p, s).jobs.Keys == s.jobs.Keys
  {
    hide FateOf, Plan.Validated, Ranked, Visit, AllFinished, Live, Pop, Retop, AttachHook;
    PopOnlyControl(s);
    match Top(s)
    case Scan(i, changed) =>
      RetopOnlyControl(s, Scan(0, false));
      RetopOnlyControl(s, Probe);
      if i < |p.order| { ClosedVisit(p, s, i, changed); }
    case Attach(i, t) => AttachOnlyControl(s, i, t);
    case Probe =>
  }

  lemma ClosedAcceptsNothing(p: Plan, s: State, l: Step)
    requires CanStep(p, s, l) && s.closed
    ensures Next(p, s, l).closed && Next(p, s, l).jobs.Keys == s.jobs.Keys
  {
    hide FateOf, Plan.Validated, Ranked, Advanced, Claimed, Upstream, Marked, Plan.Result;
    if l.Advance? {
      if Top(s).Scan? && Top(s).i < |p.order| { InOrder(p, s, Top(s).i); }
      ClosedAdvance(p, s);
    }
  }

  /** Every run can be continued to its end. */
  lemma {:induction false} RunsToTheEnd(p: Plan, s: State) returns (s': State)
    requires Reachable(p, s) && s.closed
    ensures Reachable(p, s') && Quiescent(s') && s'.jobs.Keys == s.jobs.Keys
    decreases Measure(p, s)
  {
    hide FateOf, Reachable, Measure, Scheduling.Next, CanStep;
    if Quiescent(s) {
      s' := s;
    } else {
      var l := SomeThreadCanStep(p, s);
      ReachableInv(p, s);
      ReachStep(p, s, l);
      StepDecreases(p, s, l);
      ClosedAcceptsNothing(p, s, l);
      s' := RunsToTheEnd(p, Next(p, s, l));
    }
  }

  /** Some run ends without having executed more than the first `schedule()` has submitted,
      if that ends by itself or there is a thread for each of these tasks. */
  lemma EndsAfterFirst(p: Plan, s: State) returns (s': State)
    requires Reachable(p, s) && Unstarted(s) && (s.stack == [] || (s.stack == [Probe] && |s.jobs| <= p.workers))
    ensures Reachable(p, s') && Quiescent(s') && s'.jobs.Keys == s.jobs.Keys
  {
    hide FateOf, Reachable;
    var s1 := s;
    if s.stack != [] { s1 := GuardFires(p, s); }
    Races.CloseStep(p, s1);
    s' := RunsToTheEnd(p, s1.(closed := true));
  }
}
