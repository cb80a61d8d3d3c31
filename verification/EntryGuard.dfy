/** Which graphs can raise the no-progress error, told before the run. */
module EntryGuard {
  import opened Lifecycle
  import opened Scheduling
  import opened Safety
  import opened Control
  import opened Confluence
  import opened FirstSchedule
  import Races
  import opened InlineRuns

  /** The evaluator neither executes a task nor leaves one PENDING. */
  ghost predicate AtRest(p: Plan)
    requires p.Validated()
  {
    forall t :: t in p.deps ==> !FateOf(p, t).ran && !FateOf(p, t).status.Pending?
  }

  lemma JobRuns(p: Plan, s: State, x: TaskId)
    requires Safe(p, s) && x in s.jobs
    ensures x in p.deps && FateOf(p, x).ran
  {
    hide FateOf;
    assert TaskInv(p, s, x);
  }

  lemma NeverStarted(p: Plan, s: State, t: TaskId)
    requires Safe(p, s) && t in p.deps && t !in s.jobs
    ensures !s.status[t].Running?
  {
    hide FateOf;
    assert TaskInv(p, s, t);
  }

  /** In such a graph every task is terminal by the time a pass ends without changes. */
  lemma AtRestStep(p: Plan, s: State, l: Step)
    requires Inv(p, s) && CanStep(p, s, l) && AtRest(p) && !s.guard
    ensures !Next(p, s, l).guard
  {
    hide FateOf, Advanced;
    if Next(p, s, l).guard {
      HowDone(p, s, l);
      forall x | x in s.jobs ensures false { JobRuns(p, s, x); }
      forall x | x in p.deps ensures !CanAct(p, s, x) {
        if CanAct(p, s, x) { ScannedAll(p, s, x); }
      }
      var t :| t in p.deps && !Finished(s, t);
      FixpointIsFate(p, s, t);
      NeverStarted(p, s, t);
    }
  }

  lemma {:induction false} AtRestRun(p: Plan, s: State, ls: seq<Step>, s': State)
    requires Inv(p, s) && Follows(p, s, ls, s') && AtRest(p) && !s.guard
    ensures !s'.guard
    decreases |ls|
  {
    hide FateOf, AtRest;
    if ls != [] {
      AtRestStep(p, s, ls[0]);
      StepKeeps(p, s, ls[0]);
      AtRestRun(p, Next(p, s, ls[0]), ls[1..], s');
    }
  }

  lemma LeftPending(p: Plan, s: State, t: TaskId)
    requires Safe(p, s) && t in p.deps && FateOf(p, t).status.Pending? && t !in s.jobs
    ensures s.status[t].Pending? && !Finished(s, t)
  {
    assert TaskInv(p, s, t);
  }

  /** Where nothing is executed and a task stays PENDING, the first pass finds nothing live. */
  lemma StuckFires(p: Plan, t: TaskId) returns (s: State)
    requires p.Validated() && t in p.deps && FateOf(p, t).status.Pending?
    requires forall x :: x in p.deps ==> !FateOf(p, x).ran
    ensures Reachable(p, s) && s.guard
  {
    hide FateOf, Follows;
    var s0 := FirstScheduleEnds(p);
    ReachableInv(p, s0);
    forall x | x in s0.jobs ensures false { JobRuns(p, s0, x); }
    LeftPending(p, s0, t);
    Races.FireStep(p, s0);
    s := s0.(stack := [], kickoff := false, done := true, guard := true);
  }

  /** For every entry and every pool, the no-progress error is possible if and only if the graph
      executes anything at all or leaves a task PENDING.  In the first case the last task to be
      submitted may complete between a pass and its test for live futures. */
  lemma GuardCanFireIff(p: Plan)
    requires p.Validated()
    ensures (exists s :: Reachable(p, s) && s.guard)
       <==> exists t :: t in p.deps && (FateOf(p, t).ran || FateOf(p, t).status.Pending?)
  {
    hide FateOf, Reachable;
    if t :| t in p.deps && FateOf(p, t).ran {
      var s := SomeRunFires(p, t);
    } else if t :| t in p.deps && FateOf(p, t).status.Pending? {
      var s := StuckFires(p, t);
    } else {
      forall s | Reachable(p, s) ensures !s.guard { AtRestNeverFires(p, s); }
    }
  }

  lemma AtRestNeverFires(p: Plan, s: State)
    requires Reachable(p, s) && AtRest(p)
    ensures !s.guard
  {
    hide FateOf, AtRest;
    var ls :| Follows(p, Init(p), ls, s);
    InitInv(p);
    AtRestRun(p, Init(p), ls, s);
  }

  /** A fresh graph leaves no task PENDING, so it can raise the error exactly if it executes
      anything; then the error is spurious. */
  lemma FreshGuardCanFireIff(p: Plan)
    requires p.Validated() && p.Fresh()
    ensures (exists s :: Reachable(p, s) && s.guard) <==> exists t :: t in p.deps && FateOf(p, t).ran
  {
    hide FateOf, Reachable, Eval;
    GuardCanFireIff(p);
    forall t | t in p.deps ensures !FateOf(p, t).status.Pending? { FreshFate(p, t); }
  }
}
