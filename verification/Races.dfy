/** Two concrete interleavings on the graph `0 -> 1` that end short of the evaluator: the
    hypotheses of `Guard` are needed. */
module Races {
  import opened Lifecycle
  import opened Scheduling
  import opened Safety
  import opened Control
  import opened Confluence
  import opened Guard

  // ---- Single steps with one activation on the stack ---------------------------------

  lemma SkipStep(p: Plan, s: State, i: nat, changed: bool)
    requires Reachable(p, s) && s.stack == [Scan(i, changed)] && i < |p.order|
    requires p.order[i] in p.deps && !CanAct(p, s, p.order[i])
    ensures Reachable(p, s.(stack := [Scan(i + 1, changed)]))
  {
    hide FateOf, Plan.Validated, Ranked, Ready, Skipped, FirstBad;
    assert Next(p, s, Advance) == s.(stack := [Scan(i + 1, changed)]);
    ReachStep(p, s, Advance);
  }

  lemma RestartStep(p: Plan, s: State)
    requires Reachable(p, s) && s.stack == [Scan(|p.order|, true)]
    ensures Reachable(p, s.(stack := [Scan(0, false)]))
  {
    hide FateOf, Plan.Validated, Ranked;
    assert Next(p, s, Advance) == s.(stack := [Scan(0, false)]);
    ReachStep(p, s, Advance);
  }

  lemma SubmitSteps(p: Plan, s: State, i: nat, changed: bool, t: TaskId)
    requires Reachable(p, s) && s.stack == [Scan(i, changed)] && i < |p.order| && !s.closed
    requires t == p.order[i] && t in p.deps && !Blocks(p, s, t) && Submits(p, s, t)
    ensures Reachable(
        p, s.(stack := [Scan(i + 1, true)], jobs := s.jobs[t := Job(Queued, Registered)], log := s.log + [t]))
  {
    hide FateOf, Plan.Validated, Ranked, Blocks, Submits;
    var s1 := s.(stack := [Attach(i, t)], jobs := s.jobs[t := Job(Queued, Unregistered)], log := s.log + [t]);
    assert Next(p, s, Advance) == s1;
    ReachStep(p, s, Advance);
    RegisterStep(p, s1, i, t);
    assert s1.jobs[t := Job(Queued, Registered)] == s.jobs[t := Job(Queued, Registered)];
  }

  lemma RegisterStep(p: Plan, s: State, i: nat, t: TaskId)
    requires Reachable(p, s) && s.stack == [Attach(i, t)] && t in s.jobs && s.jobs[t].stage.Queued?
    ensures Reachable(p, s.(stack := [Scan(i + 1, true)], jobs := s.jobs[t := Job(Queued, Registered)]))
  {
    hide FateOf, Plan.Validated, Ranked;
    assert AttachHook(s, i, t) == s.(stack := [Scan(i + 1, true)], jobs := s.jobs[t := Job(Queued, Registered)]);
    ReachStep(p, s, Advance);
  }

  lemma RefuseStep(p: Plan, s: State, i: nat, changed: bool, t: TaskId)
    requires Reachable(p, s) && s.stack == [Scan(i, changed)] && i < |p.order| && s.closed
    requires t == p.order[i] && t in p.deps && !Blocks(p, s, t) && Submits(p, s, t)
    ensures Reachable(p, s.(stack := [], kickoff := false, refused := s.refused + {t}))
  {
    hide FateOf, Plan.Validated, Ranked, Blocks, Submits;
    assert Next(p, s, Advance) == s.(stack := [], kickoff := false, refused := s.refused + {t});
    ReachStep(p, s, Advance);
  }

  lemma FinishStep(p: Plan, s: State)
    requires Reachable(p, s) && s.stack == [Scan(|p.order|, false)] && AllFinished(p, s)
    ensures Reachable(p, s.(stack := [], kickoff := false, done := true))
  {
    hide FateOf, Plan.Validated, Ranked, AllFinished;
    assert Next(p, s, Advance) == s.(stack := [], kickoff := false, done := true);
    ReachStep(p, s, Advance);
  }

  lemma ProbeStep(p: Plan, s: State)
    requires Reachable(p, s) && s.stack == [Scan(|p.order|, false)] && !AllFinished(p, s)
    ensures Reachable(p, s.(stack := [Probe]))
  {
    hide FateOf, Plan.Validated, Ranked, AllFinished;
    assert Next(p, s, Advance) == s.(stack := [Probe]);
    ReachStep(p, s, Advance);
  }

  lemma FireStep(p: Plan, s: State)
    requires Reachable(p, s) && s.stack == [Probe] && !Live(s)
    ensures Reachable(p, s.(stack := [], kickoff := false, done := true, guard := true))
  {
    hide FateOf, Plan.Validated, Ranked, Live;
    assert Next(p, s, Advance) == s.(stack := [], kickoff := false, done := true, guard := true);
    ReachStep(p, s, Advance);
  }

  lemma CloseStep(p: Plan, s: State)
    requires Reachable(p, s) && s.done && !s.closed && !s.kickoff
    ensures Reachable(p, s.(closed := true))
  {
    hide FateOf, Plan.Validated, Ranked;
    ReachStep(p, s, Close);
  }

  lemma CallbackStep(p: Plan, s: State, t: TaskId)
    requires Reachable(p, s) && s.stack == [] && t in s.jobs && s.jobs[t] == Job(Resolved(false), Registered)
    ensures Reachable(p, s.(stack := [Scan(0, false)], jobs := s.jobs[t := Job(Resolved(false), Entered)], late := {}))
  {
    hide FateOf, Plan.Validated, Ranked;
    assert Next(p, s, Callback(t))
        == s.(stack := [Scan(0, false)], jobs := s.jobs[t := Job(Resolved(false), Entered)], late := {});
    ReachStep(p, s, Callback(t));
  }

  lemma StartStep(p: Plan, s: State, t: TaskId)
    requires Reachable(p, s) && t in s.jobs && s.jobs[t] == Job(Queued, Registered)
    requires Claimed(s, t) < p.workers && t !in p.unhandled
    ensures Reachable(p, s.(status := s.status[t := Running], jobs := s.jobs[t := Job(Working, Registered)]))
  {
    hide FateOf, Plan.Validated, Ranked, Claimed;
    ReachStep(p, s, Start(t));
  }

  lemma SettleStep(p: Plan, s: State, t: TaskId)
    requires Reachable(p, s) && t in s.jobs && s.jobs[t] == Job(Working, Registered)
    requires t !in p.unhandled && forall up :: p.handler(t, up) == Returned
    ensures Reachable(p, s.(status := s.status[t := Succeeded], jobs := s.jobs[t := Job(Settled, Registered)],
                            late := Marked(s, t)))
  {
    hide FateOf, Plan.Validated, Ranked;
    ReachStep(p, s, Settle(t));
  }

  lemma ResolveStep(p: Plan, s: State, t: TaskId)
    requires Reachable(p, s) && t in s.jobs && s.jobs[t] == Job(Settled, Registered)
    requires t in s.status && s.status[t].Succeeded?
    ensures Reachable(p, s.(jobs := s.jobs[t := Job(Resolved(false), Registered)], late := Marked(s, t)))
  {
    hide FateOf, Plan.Validated, Ranked;
    assert s.status[t := s.status[t]] == s.status;
    ReachStep(p, s, Resolve(t));
  }

  /** A worker takes `t` from the queue to its resolved future. */
  lemma WorkerRuns(p: Plan, s: State, t: TaskId)
    requires Reachable(p, s) && t in s.jobs && s.jobs[t] == Job(Queued, Registered) && Claimed(s, t) < p.workers
    requires t !in p.unhandled && forall up :: p.handler(t, up) == Returned
    ensures Reachable(p, s.(status := s.status[t := Succeeded], jobs := s.jobs[t := Job(Resolved(false), Registered)],
                            late := Marked(s, t)))
  {
    hide FateOf, Plan.Validated, Ranked, Claimed, Reachable;
    StartStep(p, s, t);
    var s1 := s.(status := s.status[t := Running], jobs := s.jobs[t := Job(Working, Registered)]);
    SettleStep(p, s1, t);
    var s2 := s.(status := s.status[t := Succeeded], jobs := s.jobs[t := Job(Settled, Registered)],
        late := Marked(s, t));
    assert s1.status[t := Succeeded] == s2.status && s1.jobs[t := Job(Settled, Registered)] == s2.jobs;
    ResolveStep(p, s2, t);
    assert s2.jobs[t := Job(Resolved(false), Registered)] == s.jobs[t := Job(Resolved(false), Registered)];
    assert Marked(s2, t) == s2.late;
  }

  /** The only task in the queue can have any thread. */
  lemma OnlyInQueue(s: State)
    requires s.jobs == map[0 := Job(Queued, Registered)] && s.log == [0] && (s.stack == [] || s.kickoff)
    ensures Claimed(s, 0) == 0
  {
    assert Busy(s) == {} && Ahead(s, 0) == {};
  }

  // ---- The pair ---------------------------------------------------------------------------

  /** Task 1 depends on task 0; both enter in status `e`, both handlers return. */
  function Pair(e: Status): Plan {
    Plan([0, 1], map[0 := [], 1 := [0]], {}, map[0 := e, 1 := e], {}, (t, up) => Returned, 1,
         map[0 := 0, 1 := 1])
  }

  lemma PairInit(e: Status)
    requires e in {Pending, Failed}
    ensures Reachable(Pair(e), Init(Pair(e))) && Submits(Pair(e), Init(Pair(e)), 0)
    ensures !Blocks(Pair(e), Init(Pair(e)), 0)
  {
    var p := Pair(e);
    assert Follows(p, Init(p), [], Init(p));
    assert p.deps[0] == [];
  }

  /** Before task 0 is done there is nothing to do about either task. */
  lemma NoActYet(e: Status, s: State)
    requires e in {Pending, Failed} && Reachable(Pair(e), s) && s.jobs == map[0 := Job(Queued, Registered)]
    requires s.status == map[0 := e, 1 := e] && s.errors == {}
    ensures !CanAct(Pair(e), s, 0) && !CanAct(Pair(e), s, 1)
  {
    assert Pair(e).deps[1] == [0] && !BadParent(Pair(e), s, 0);
    assert 0 in Pair(e).deps[1] && !s.status[0].Succeeded?;
  }

  /** Once task 0 has succeeded, task 1 is to be submitted. */
  lemma ActNow(e: Status, s: State)
    requires e in {Pending, Failed} && Reachable(Pair(e), s) && s.jobs == map[0 := Job(Resolved(false), Entered)]
    requires s.status == map[0 := Succeeded, 1 := e] && s.errors == {}
    ensures !CanAct(Pair(e), s, 0) && !Blocks(Pair(e), s, 1) && Submits(Pair(e), s, 1)
  {
    hide FateOf, Follows, Eval, Reachable, Plan.Validated, Ranked;
    assert Pair(e).deps[1] == [0] && !BadParent(Pair(e), s, 0);
  }

  /** `schedule()` has submitted task 0, found nothing else to do and completed its pass. */
  function AfterPass(e: Status): State {
    State(map[0 := e, 1 := e], map[0 := Job(Queued, Registered)], {}, map[],
          [Scan(2, false)], true, false, false, false, {}, [0], {})
  }

  lemma FirstPass(e: Status)
    requires e in {Pending, Failed}
    ensures Reachable(Pair(e), AfterPass(e))
  {
    hide FateOf, Plan.Validated, Ranked, Follows, CanAct, Submits, Blocks, Reachable;
    var p, s := Pair(e), AfterPass(e);
    PairInit(e);
    SubmitSteps(p, Init(p), 0, false, 0);
    assert Init(p).(stack := [Scan(1, true)], jobs := map[][0 := Job(Queued, Registered)], log := [] + [0])
        == s.(stack := [Scan(1, true)]);
    NoActYet(e, s.(stack := [Scan(1, true)]));
    SkipStep(p, s.(stack := [Scan(1, true)]), 1, true);
    RestartStep(p, s.(stack := [Scan(2, true)]));
    NoActYet(e, s.(stack := [Scan(0, false)]));
    SkipStep(p, s.(stack := [Scan(0, false)]), 0, false);
    NoActYet(e, s.(stack := [Scan(1, false)]));
    SkipStep(p, s.(stack := [Scan(1, false)]), 1, false);
  }

  /** The pool is already closed when task 0's callback finds task 1 ready. */
  lemma CallbackIsRefused(e: Status, s: State)
    requires e in {Pending, Failed} && Reachable(Pair(e), s)
    requires s.stack == [] && s.closed && !s.kickoff && s.refused == {} && s.errors == {}
    requires s.jobs == map[0 := Job(Resolved(false), Registered)] && s.status == map[0 := Succeeded, 1 := e]
    ensures var s' := s.(jobs := map[0 := Job(Resolved(false), Entered)], refused := {1}, late := {});
            Reachable(Pair(e), s') && Quiescent(s')
  {
    hide FateOf, Plan.Validated, Ranked, Follows, CanAct, Submits, Blocks, Reachable;
    var p := Pair(e);
    CallbackStep(p, s, 0);
    var s1 := s.(stack := [Scan(0, false)], jobs := map[0 := Job(Resolved(false), Entered)], late := {});
    assert s.jobs[0 := Job(Resolved(false), Entered)] == s1.jobs;
    ActNow(e, s1);
    SkipStep(p, s1, 0, false);
    ActNow(e, s1.(stack := [Scan(1, false)]));
    RefuseStep(p, s1.(stack := [Scan(1, false)]), 1, false, 1);
    assert {} + {1} == {1};
  }

  /** A fresh graph whose handlers all succeed can still end with the guard raised and a
      task left PENDING: task 0 completes between the pass and the test for live futures. */
  lemma GuardCanFireSpuriously()
    ensures exists s ::
              && Pair(Pending).Fresh() && Reachable(Pair(Pending), s) && Quiescent(s) && s.guard
              && s.status[1].Pending? && Eval(Pair(Pending), 1).Succeeded?
  {
    hide FateOf, Eval, Plan.Validated, Ranked, Follows, CanAct, Submits, Blocks, Claimed;
    var p, s0 := Pair(Pending), AfterPass(Pending);
    PairEval();
    FirstPass(Pending);
    assert !Finished(s0, 1);
    ProbeStep(p, s0);
    var s1 := s0.(stack := [Probe]);
    OnlyInQueue(s1);
    WorkerRuns(p, s1, 0);
    var s2 := s1.(status := map[0 := Succeeded, 1 := Pending], jobs := map[0 := Job(Resolved(false), Registered)],
        late := {0});
    assert s1.status[0 := Succeeded] == s2.status && s1.jobs[0 := Job(Resolved(false), Registered)] == s2.jobs;
    assert Marked(s1, 0) == {0};
    assert !Live(s2);
    FireStep(p, s2);
    var s3 := s2.(stack := [], kickoff := false, done := true, guard := true);
    CloseStep(p, s3);
    CallbackIsRefused(Pending, s3.(closed := true));
  }

  lemma PairEval()
    ensures Pair(Pending).Validated() && Eval(Pair(Pending), 1).Succeeded?
  {
    var p := Pair(Pending);
    assert p.deps[1] == [0] && p.deps[0] == [];
    assert Eval(p, 0).Succeeded?;
  }

  lemma PairRecovers()
    ensures Recovering(Pair(Failed)) && Pair(Failed).Validated()
    ensures FateOf(Pair(Failed), 1) == Fate(Succeeded, true)
  {
    RecoveringFate(Pair(Failed), 1);
  }

  /** A rerun of two FAILED tasks whose handlers now succeed can leave the second one
      FAILED: while task 0 is still queued both look finished, so the pool closes. */
  lemma RecoveryCanStopEarly()
    ensures exists s ::
              && Recovering(Pair(Failed)) && Reachable(Pair(Failed), s) && Quiescent(s) && !s.guard
              && s.status[0].Succeeded? && s.status[1].Failed? && FateOf(Pair(Failed), 1) == Fate(Succeeded, true)
  {
    hide FateOf, Eval, Plan.Validated, Ranked, Follows, CanAct, Submits, Blocks, Claimed;
    var p, s0 := Pair(Failed), AfterPass(Failed);
    PairRecovers();
    FirstPass(Failed);
    assert AllFinished(p, s0);
    FinishStep(p, s0);
    var s1 := s0.(stack := [], kickoff := false, done := true);
    CloseStep(p, s1);
    var s2 := s1.(closed := true);
    OnlyInQueue(s2);
    WorkerRuns(p, s2, 0);
    var s3 := s2.(status := map[0 := Succeeded, 1 := Failed], jobs := map[0 := Job(Resolved(false), Registered)]);
    assert s2.status[0 := Succeeded] == s3.status && s2.jobs[0 := Job(Resolved(false), Registered)] == s3.jobs;
    CallbackIsRefused(Failed, s3);
  }
}
