/** Runs in which workers move only while the main thread, in its first `schedule()`, is
    submitting a task: the task is finished by the time its callback is added, so that the
    callback runs on the spot.  One task may be held back in the queue. */
module InlineRuns {
  import opened Lifecycle
  import opened Scheduling
  import opened Safety
  import opened Control
  import opened Confluence
  import opened Termination
  import opened FirstSchedule
  import Races

  /** `x` is the task that the lock holder is submitting. */
  predicate Attaching(s: State, x: TaskId) {
    s.stack != [] && Top(s).Attach? && Top(s).tid == x
  }

  /** A submitted task has been dealt with, is being submitted, or is held back. */
  predicate Placed(s: State, held: Option<TaskId>, x: TaskId)
    requires x in s.jobs
  {
    var job := s.jobs[x];
    if held == Some(x) then job.stage.Queued?
    else if Attaching(s, x) then (job.stage.Queued? || job.stage.Resolved?) && job.hook.Unregistered?
    else job.stage.Resolved? && job.hook.Entered?
  }

  ghost predicate Inline(s: State, held: Option<TaskId>) {
    && !s.closed && s.refused == {} && (s.stack != [] ==> s.kickoff)
    && forall x {:trigger Placed(s, held, x)} :: x in s.jobs ==> Placed(s, held, x)
  }

  // ---- Steps of the lock holder ---------------------------------------------------------------

  lemma MovesInline(s: State, held: Option<TaskId>, f: Frame)
    requires Inline(s, held) && s.stack != [] && !Top(s).Attach? && !f.Attach?
    ensures Inline(Retop(s, f), held)
  {
    var s' := Retop(s, f);
    forall x | x in s'.jobs ensures Placed(s', held, x) { assert Placed(s, held, x); }
  }

  lemma BlocksInline(s: State, held: Option<TaskId>, status: map<TaskId, Status>, blame: map<TaskId, TaskId>)
    requires Inline(s, held)
    ensures Inline(s.(status := status, blame := blame), held)
  {
    var s' := s.(status := status, blame := blame);
    assert s.stack != [] ==> Top(s') == Top(s);
    forall x | x in s'.jobs ensures Placed(s', held, x) { assert Placed(s, held, x); }
  }

  lemma AcceptsInline(s: State, held: Option<TaskId>, i: nat, t: TaskId)
    requires Inline(s, held) && s.stack != [] && !Top(s).Attach? && t !in s.jobs
    ensures Inline(Retop(s, Attach(i, t)).(jobs := s.jobs[t := Job(Queued, Unregistered)], log := s.log + [t]), held)
  {
    var s' := Retop(s, Attach(i, t)).(jobs := s.jobs[t := Job(Queued, Unregistered)], log := s.log + [t]);
    assert Top(s') == Attach(i, t);
    forall x | x in s'.jobs ensures Placed(s', held, x) { assert x in s.jobs ==> Placed(s, held, x); }
  }

  lemma PopsInline(s: State, held: Option<TaskId>, done: bool)
    requires Inline(s, held) && s.stack != [] && !Top(s).Attach?
        && (|s.stack| > 1 ==> !s.stack[|s.stack| - 2].Attach?)
    ensures Inline(Pop(s).(done := done), held)
  {
    var s' := Pop(s).(done := done);
    PopFields(s);
    if s'.stack != [] { assert Top(s') == s.stack[|s.stack| - 2]; }
    forall x | x in s'.jobs ensures Placed(s', held, x) { assert Placed(s, held, x); }
  }

  /** The callback of the held task is added, that of any other runs on the spot. */
  lemma AttachesInline(s: State, held: Option<TaskId>, i: nat, t: TaskId)
    requires Inline(s, held) && s.stack != [] && Top(s) == Attach(i, t) && t in s.jobs
        && (Done(s, t) || held == Some(t))
    ensures Inline(AttachHook(s, i, t), held)
  {
    var s' := AttachHook(s, i, t);
    assert Placed(s, held, t) && (Top(s') == Scan(i + 1, true) || Top(s') == Scan(0, false));
    forall x | x in s'.jobs ensures Placed(s', held, x) { assert Placed(s, held, x); }
  }

  /** Whether a step of the lock holder has submitted a task. */
  ghost predicate Grown(s: State, s': State) {
    if s'.stack != [] && Top(s').Attach? then
      && Top(s').tid !in s.jobs && s'.jobs.Keys == s.jobs.Keys + {Top(s').tid}
      && s'.jobs[Top(s').tid].stage.Queued?
    else s'.jobs.Keys == s.jobs.Keys
  }

  lemma VisitsInline(p: Plan, s: State, held: Option<TaskId>, i: nat, changed: bool)
    requires Fits(p, s) && Inv(p, s) && Inline(s, held) && s.stack != [] && Top(s) == Scan(i, changed) && i < |p.order|
    ensures var s' := Visit(p, s, i, changed);
            Inline(s', held) && Grown(s, s') && s'.stack != []
  {
    hide FateOf, Plan.Validated, Ranked, Submits, Blocks, FirstBad, Inline, Safe, StackInv, ExitInv, RefusedInv;
    var t := p.order[i];
    InOrder(p, s, i);
    OpenInline(s, held);
    MovesInline(s, held, Scan(i + 1, true));
    MovesInline(s, held, Scan(i + 1, changed));
    if Blocks(p, s, t) {
      var s' := Visit(p, s, i, changed);
      BlocksInline(Retop(s, Scan(i + 1, true)), held, s'.status, s'.blame);
      assert Top(s') == Scan(i + 1, true);
    } else if Submits(p, s, t) {
      SubmittedIsNew(p, s, t);
      AcceptsInline(s, held, i, t);
      assert Top(Visit(p, s, i, changed)) == Attach(i, t);
    } else {
      assert Top(Visit(p, s, i, changed)) == Scan(i + 1, changed);
    }
  }

  lemma OpenInline(s: State, held: Option<TaskId>)
    requires Inline(s, held)
    ensures !s.closed
  {
  }

  lemma SubmittedIsNew(p: Plan, s: State, t: TaskId)
    requires Fits(p, s) && t in p.deps && Submits(p, s, t)
    ensures t !in s.jobs
  {
    hide FateOf;
  }

  /** Activations below the current one are not submitting. */
  lemma PopGrows(p: Plan, s: State, done: bool)
    requires Inv(p, s) && s.stack != []
    ensures Grown(s, Pop(s).(done := done))
  {
    hide FateOf, Plan.Validated, Ranked, Safe, RefusedInv, ExitInv;
    PopFields(s);
    var s' := Pop(s).(done := done);
    if s'.stack != [] { assert Top(s') == s.stack[|s.stack| - 2]; }
  }

  lemma AdvancesInline(p: Plan, s: State, held: Option<TaskId>)
    requires Fits(p, s) && Inv(p, s) && Inline(s, held) && s.stack != [] && (Top(s).Probe? ==> Live(s))
    requires Top(s).Attach? ==> Top(s).tid in s.jobs && (Done(s, Top(s).tid) || held == Some(Top(s).tid))
    ensures var s' := Advanced(p, s);
            && Inline(s', held) && Grown(s, s')
            && (s'.stack == [] ==> (Top(s).Probe? && |s.stack| == 1) || (Top(s).Scan? && AllFinished(p, s) && s'.done))
  {
    hide FateOf, Plan.Validated, Ranked, Visit, Inline, AllFinished, Live, Safe, ExitInv, RefusedInv, Pop;
    PopFields(s);
    match Top(s)
    case Scan(i, changed) =>
      if i < |p.order| {
        VisitsInline(p, s, held, i, changed);
      } else {
        MovesInline(s, held, Scan(0, false));
        MovesInline(s, held, Probe);
        PopsInline(s, held, true);
        PopGrows(p, s, true);
        assert Top(Retop(s, Scan(0, false))) == Scan(0, false) && Top(Retop(s, Probe)) == Probe;
      }
    case Attach(i, t) =>
      AttachesInline(s, held, i, t);
      AttachGrows(s, i, t);
    case Probe =>
      PopsInline(s, held, s.done);
      PopGrows(p, s, s.done);
      assert Pop(s).(done := s.done) == Pop(s);
  }

  lemma AttachGrows(s: State, i: nat, t: TaskId)
    requires s.stack != [] && t in s.jobs
    ensures Grown(s, AttachHook(s, i, t)) && AttachHook(s, i, t).stack != []
  {
    AttachOnlyControl(s, i, t);
    var s' := AttachHook(s, i, t);
    assert Top(s') == Scan(i + 1, true) || Top(s') == Scan(0, false);
  }

  // ---- Threads ----------------------------------------------------------------------------------

  /** Where only the held task waits in the queue, another one needs at most the second thread. */
  lemma InlineThread(s: State, held: Option<TaskId>, x: TaskId)
    requires FlagInv(s) && Inline(s, held) && x in s.jobs && s.jobs[x].stage.Queued?
    requires held == Some(x) && s.stack != [] ==> !Top(s).Attach?
    ensures Claimed(s, x) <= (if held.Some? && held != Some(x) then 1 else 0)
  {
    hide Precedes;
    assert Busy(s) == {} by {
      forall y | y in s.jobs ensures y !in Busy(s) { assert Placed(s, held, y); }
    }
    if held.Some? && held != Some(x) {
      AheadOnly(s, held, x);
      Smaller(Ahead(s, x), {held.value});
    } else {
      AheadNone(s, held, x);
    }
  }

  lemma NotAheadOfItself(s: State, x: TaskId)
    requires FlagInv(s)
    ensures x !in Ahead(s, x)
  {
  }

  lemma AheadOnly(s: State, held: Option<TaskId>, x: TaskId)
    requires FlagInv(s) && Inline(s, held) && x in s.jobs && s.jobs[x].stage.Queued? && held.Some? && held != Some(x)
    ensures Ahead(s, x) <= {held.value}
  {
    hide Precedes;
    NotAheadOfItself(s, x);
    assert Placed(s, held, x);
    forall y | y in Ahead(s, x) ensures y == held.value { assert Placed(s, held, y); }
  }

  lemma AheadNone(s: State, held: Option<TaskId>, x: TaskId)
    requires FlagInv(s) && Inline(s, held) && x in s.jobs && s.jobs[x].stage.Queued? && (held.None? || held == Some(x))
    requires held == Some(x) && s.stack != [] ==> !Top(s).Attach?
    ensures Ahead(s, x) == {}
  {
    hide Precedes;
    NotAheadOfItself(s, x);
    assert Placed(s, held, x);
    forall y | y in s.jobs ensures y !in Ahead(s, x) { assert Placed(s, held, y); }
  }

  // ---- One macro step -----------------------------------------------------------------------------

  /** The lock holder takes a step; a task that it is submitting is finished before. */
  lemma InlineStep(p: Plan, s: State, held: Option<TaskId>) returns (s': State)
    requires Reachable(p, s) && Inline(s, held) && s.stack != [] && (Top(s).Probe? ==> Live(s))
    requires held.None? || p.workers >= 2 || (Top(s).Attach? ==> held == Some(Top(s).tid))
    ensures Reachable(p, s') && Inline(s', held) && Measure(p, s') < Measure(p, s)
    ensures s'.stack != [] && Top(s').Attach? ==> Top(s').tid !in s.jobs && s'.jobs.Keys == s.jobs.Keys + {Top(s').tid}
    ensures s'.stack != [] && Top(s').Attach? ==> Top(s').tid in s'.jobs && s'.jobs[Top(s').tid].stage.Queued?
    ensures s'.stack == [] || !Top(s').Attach? ==> s'.jobs.Keys == s.jobs.Keys
    ensures s'.stack == [] ==>
              (Top(s).Probe? && |s.stack| == 1) || (Top(s).Scan? && Fits(p, s) && AllFinished(p, s) && s'.done)
  {
    hide FateOf, Reachable, Measure, AllFinished, Live, Inline, Advanced, Inv;
    ReachableInv(p, s);
    ReachableFits(p, s);
    var s1 := s;
    if Top(s).Attach? && held != Some(Top(s).tid) && !Done(s, Top(s).tid) { s1 := Handled(p, s, held); }
    ReachableInv(p, s1);
    ReachableFits(p, s1);
    AdvancesInline(p, s1, held);
    ReachStep(p, s1, Advance);
    StepDecreases(p, s1, Advance);
    s' := Next(p, s1, Advance);
  }

  /** A worker finishes the task that is being submitted. */
  lemma Handled(p: Plan, s: State, held: Option<TaskId>) returns (s': State)
    requires Reachable(p, s) && Inline(s, held) && s.stack != [] && Top(s).Attach? && held != Some(Top(s).tid)
    requires Top(s).tid in s.jobs && !Done(s, Top(s).tid) && (held.None? || p.workers >= 2)
    ensures Reachable(p, s') && Inline(s', held) && Measure(p, s') < Measure(p, s)
    ensures s'.stack == s.stack && s'.jobs.Keys == s.jobs.Keys && Done(s', Top(s).tid)
  {
    hide FateOf, Reachable, Measure;
    var x := Top(s).tid;
    ReachableInv(p, s);
    ReachableFits(p, s);
    assert Placed(s, held, x);
    InlineThread(s, held, x);
    var raised;
    s', raised := WorkerFinishes(p, s, x);
    forall y | y in s'.jobs ensures Placed(s', held, y) { assert Placed(s, held, y); }
  }

  // ---- The last submission held back ----------------------------------------------------------------

  /** Some task that is to be executed has not been submitted. */
  ghost predicate Missing(p: Plan, s: State)
    requires p.Validated()
  {
    exists t :: t in p.deps && FateOf(p, t).ran && t !in s.jobs
  }

  /** With every callback entered and no completion left to notice, nothing is missing. */
  lemma IdleMissesNothing(p: Plan, s: State)
    requires Inv(p, s) && Inline(s, None) && (s.stack == [] || Top(s).Probe?)
    ensures !Missing(p, s)
  {
    hide FateOf;
    forall x | x in s.jobs ensures Done(s, x) && s.jobs[x].hook.Entered? { assert Placed(s, None, x); }
    forall x | x in p.deps ensures !CanAct(p, s, x) {
      if CanAct(p, s, x) && s.stack != [] { ScannedAll(p, s, x); }
    }
    forall t | t in p.deps ensures Agrees(p, s, t) { FixpointIsFate(p, s, t); }
  }

  /** Run inline until the last task to be executed is being submitted. */
  lemma {:induction false} LastSubmission(p: Plan, s: State) returns (s': State)
    requires Reachable(p, s) && Inline(s, None) && p.Validated()
    requires Missing(p, s) || (s.stack != [] && Top(s).Attach? && Top(s).tid in s.jobs && !Done(s, Top(s).tid))
    ensures Reachable(p, s') && Inline(s', None) && s'.stack != [] && Top(s').Attach? && !Missing(p, s')
    ensures Top(s').tid in s'.jobs && s'.jobs[Top(s').tid].stage.Queued?
    decreases Measure(p, s)
  {
    hide FateOf, Reachable, Measure, Inline, Missing, Inv;
    ReachableInv(p, s);
    if s.stack == [] || Top(s).Probe? { IdleMissesNothing(p, s); }
    if Top(s).Attach? && !Missing(p, s) {
      s' := s;
      SubmittingIsQueued(p, s);
    } else {
      var s1 := InlineStep(p, s, None);
      if s1.stack == [] || !Top(s1).Attach? { SameJobsMissing(p, s, s1); }
      s' := LastSubmission(p, s1);
    }
  }

  lemma SubmittingIsQueued(p: Plan, s: State)
    requires Inline(s, None) && s.stack != [] && Top(s).Attach? && Top(s).tid in s.jobs && !Done(s, Top(s).tid)
    ensures s.jobs[Top(s).tid].stage.Queued?
  {
    assert Placed(s, None, Top(s).tid);
  }

  lemma SameJobsMissing(p: Plan, s: State, s': State)
    requires p.Validated() && Missing(p, s) && s'.jobs.Keys == s.jobs.Keys
    ensures Missing(p, s')
  {
    hide FateOf;
    var t :| t in p.deps && FateOf(p, t).ran && t !in s.jobs;
    assert t !in s'.jobs;
  }

  // ---- From the last submission to a test for live futures ---------------------------------------

  /** Every submitted task but `x` has been dealt with, and the callback of `x` is added. */
  ghost predicate OnlyLeft(s: State, x: TaskId) {
    && s.stack != [] && s.kickoff && !Top(s).Attach?
    && x in s.jobs && (s.jobs[x].stage.Queued? || s.jobs[x].stage.Working?)
    && forall y {:trigger s.jobs[y]} :: y in s.jobs && y != x ==> s.jobs[y].stage.Resolved? && s.jobs[y].hook.Entered?
  }

  ghost predicate LastLeft(s: State, x: TaskId) {
    OnlyLeft(s, x) && x in s.status && !Finished(s, x)
  }

  lemma LastMoves(s: State, x: TaskId, f: Frame)
    requires LastLeft(s, x) && !f.Attach?
    ensures LastLeft(Retop(s, f), x)
  {
    assert Top(Retop(s, f)) == f;
  }

  lemma LastBlocks(p: Plan, s: State, i: nat, x: TaskId)
    requires Fits(p, s) && LastLeft(s, x) && i < |p.order| && p.order[i] in p.deps && Blocks(p, s, p.order[i])
    ensures LastLeft(Visit(p, s, i, true), x)
  {
    hide FateOf, FirstBad;
    var s' := Visit(p, s, i, true);
    assert Top(s') == Scan(i + 1, true);
  }

  /** Nothing can be submitted any more, and while `x` is not finished no test succeeds. */
  lemma LastAdvances(p: Plan, s: State, x: TaskId)
    requires Fits(p, s) && Inv(p, s) && LastLeft(s, x) && !Missing(p, s) && !Top(s).Probe?
    ensures var s' := Advanced(p, s);
            LastLeft(s', x) && s'.jobs.Keys == s.jobs.Keys
  {
    hide FateOf, Ready, FirstBad, Inactive, BadParent, LastLeft, Missing, StackInv, ExitInv, RefusedInv, Skipped;
    LastIsUnfinished(s, x);
    var Scan(i, changed) := Top(s);
    if i < |p.order| {
      InOrder(p, s, i);
      if Submits(p, s, p.order[i]) { SubmissionWasMissing(p, s, p.order[i]); }
      if Blocks(p, s, p.order[i]) { LastBlocks(p, s, i, x); } else { LastMoves(s, x, Scan(i + 1, changed)); }
    } else {
      LastMoves(s, x, Scan(0, false));
      LastMoves(s, x, Probe);
    }
  }

  lemma LastIsUnfinished(s: State, x: TaskId)
    requires LastLeft(s, x)
    ensures s.stack != [] && !Top(s).Attach? && x in s.jobs && x in s.status && !Finished(s, x)
  {
  }

  lemma SubmissionWasMissing(p: Plan, s: State, t: TaskId)
    requires Safe(p, s) && t in p.deps && Submits(p, s, t)
    ensures Missing(p, s)
  {
    hide FateOf, FirstBad, BadParent;
    assert TaskInv(p, s, t);
    SubmittedIsFated(p, s, t);
  }

  lemma {:induction false} LastReachesTest(p: Plan, s: State, x: TaskId) returns (s': State)
    requires Reachable(p, s) && LastLeft(s, x) && p.Validated() && !Missing(p, s)
    ensures Reachable(p, s') && LastLeft(s', x) && Top(s').Probe?
    decreases Measure(p, s)
  {
    hide FateOf, Reachable, Measure, LastLeft, Missing, Inv, Advanced;
    LastIsUnfinished(s, x);
    if Top(s).Probe? {
      s' := s;
    } else {
      ReachableInv(p, s);
      ReachableFits(p, s);
      LastAdvances(p, s, x);
      ReachStep(p, s, Advance);
      StepDecreases(p, s, Advance);
      if Missing(p, Advanced(p, s)) { SameJobsMissing(p, Advanced(p, s), s); }
      s' := LastReachesTest(p, Advanced(p, s), x);
    }
  }

  /** Its future completes just before the test, so that nothing is live and the guard fires. */
  lemma LastFires(p: Plan, s: State, x: TaskId) returns (s': State)
    requires Reachable(p, s) && LastLeft(s, x) && Top(s).Probe?
    ensures Reachable(p, s') && s'.guard
  {
    hide FateOf, Reachable, Measure, Plan.Validated, Ranked;
    ReachableInv(p, s);
    ReachableFits(p, s);
    var s1, raised;
    if s.jobs[x].stage.Queued? {
      LastThread(p, s, x);
      s1, raised := WorkerFinishes(p, s, x);
    } else {
      s1, raised := HandlerFinishes(p, s, x);
    }
    assert !Live(s1);
    ReachableFits(p, s1);
    ReachStep(p, s1, Advance);
    s' := Next(p, s1, Advance);
  }

  lemma LastThread(p: Plan, s: State, x: TaskId)
    requires p.Validated() && FlagInv(s) && OnlyLeft(s, x) && s.jobs[x].stage.Queued?
    ensures Claimed(s, x) < p.workers
  {
    hide Precedes;
    NotAheadOfItself(s, x);
    assert Busy(s) == {} && Ahead(s, x) == {};
  }

  lemma RegistersLast(p: Plan, s: State, x: TaskId)
    requires Fits(p, s) && Inline(s, None) && s.stack != [] && Top(s).Attach? && Top(s).tid == x
    requires x in s.jobs && s.jobs[x].stage.Queued?
    ensures var s' := Advanced(p, s);
            s'.jobs == s.jobs[x := Job(Queued, Registered)] && OnlyLeft(s', x)
  {
    hide FateOf, Plan.Validated, Ranked;
    var s' := Advanced(p, s);
    assert Placed(s, None, x);
    assert Top(s') == Scan(Top(s).i + 1, true);
    forall y | y in s'.jobs && y != x ensures s'.jobs[y].stage.Resolved? && s'.jobs[y].hook.Entered? {
      assert Placed(s, None, y);
    }
  }

  /** The last submission has its callback added; a carried-over task also starts, since it would
      look finished in the queue. */
  lemma LastIsLeft(p: Plan, s: State, x: TaskId) returns (s': State)
    requires Reachable(p, s) && Inline(s, None) && s.stack != [] && Top(s).Attach? && Top(s).tid == x
    requires x in s.jobs && s.jobs[x].stage.Queued?
    ensures Reachable(p, s') && LastLeft(s', x) && s'.jobs.Keys == s.jobs.Keys
  {
    hide FateOf, Reachable, Plan.Validated, Ranked, Advanced;
    ReachableFits(p, s);
    RegistersLast(p, s, x);
    ReachStep(p, s, Advance);
    s' := Next(p, s, Advance);
    ReachableFits(p, s');
    if Finished(s', x) { s' := LastStarts(p, s', x); }
  }

  lemma LastStarts(p: Plan, s: State, x: TaskId) returns (s': State)
    requires Reachable(p, s) && OnlyLeft(s, x) && s.jobs[x].stage.Queued? && x in s.status && Finished(s, x)
    ensures Reachable(p, s') && LastLeft(s', x) && s'.jobs.Keys == s.jobs.Keys
  {
    hide FateOf, Reachable, Plan.Validated, Ranked, Safe, StackInv, ExitInv, RefusedInv;
    ReachableInv(p, s);
    ReachableFits(p, s);
    LastThread(p, s, x);
    ReachStep(p, s, Start(x));
    s' := Next(p, s, Start(x));
    assert Top(s') == Top(s);
  }

  /** Whatever the entry and the pool, a graph that executes anything can raise the guard's error. */
  lemma SomeRunFires(p: Plan, t: TaskId) returns (s: State)
    requires p.Validated() && t in p.deps && FateOf(p, t).ran
    ensures Reachable(p, s) && s.guard
  {
    hide FateOf, Reachable, Inline, LastLeft, Missing;
    InitReachable(p);
    StartsInline(p, None);
    assert t !in Init(p).jobs;
    MissesOne(p, Init(p), t);
    var s1 := LastSubmission(p, Init(p));
    var s2 := LastIsLeft(p, s1, Top(s1).tid);
    if Missing(p, s2) { SameJobsMissing(p, s2, s1); }
    var s3 := LastReachesTest(p, s2, Top(s1).tid);
    s := LastFires(p, s3, Top(s1).tid);
  }

  lemma MissesOne(p: Plan, s: State, t: TaskId)
    requires p.Validated() && t in p.deps && FateOf(p, t).ran && t !in s.jobs
    ensures Missing(p, s)
  {
    hide FateOf;
  }

  lemma InitReachable(p: Plan)
    requires p.Validated()
    ensures Reachable(p, Init(p))
  {
    hide FateOf;
    InitInv(p);
    assert Follows(p, Init(p), [], Init(p));
  }

  lemma StartsInline(p: Plan, held: Option<TaskId>)
    ensures Inline(Init(p), held)
  {
  }

  // ---- One task held back ----------------------------------------------------------------------------

  lemma HeldIsLive(p: Plan, s: State, a: TaskId)
    requires Inv(p, s) && Inline(s, Some(a)) && (s.stack == [] || Top(s).Probe?) && a in p.deps && FateOf(p, a).ran
    ensures a in s.jobs && s.jobs[a].stage.Queued? && Live(s)
  {
    hide FateOf;
    if a in s.jobs {
      assert Placed(s, Some(a), a);
    } else {
      forall x | x in s.jobs ensures Placed(s, None, x) { assert Placed(s, Some(a), x); }
      MissesOne(p, s, a);
      IdleMissesNothing(p, s);
    }
  }

  /** With a second thread, everything else is finished inline while `a` waits, until the first
      `schedule()` ends or comes to its test. */
  lemma {:induction false} HeldBack(p: Plan, s: State, a: TaskId) returns (s': State)
    requires Reachable(p, s) && Inline(s, Some(a)) && a in p.deps && p.Validated() && FateOf(p, a).ran && p.workers >= 2
    requires s.stack == [] ==> s.done
    ensures Reachable(p, s') && Inline(s', Some(a)) && ((s'.stack == [] && s'.done) || s'.stack == [Probe])
    decreases Measure(p, s)
  {
    hide FateOf, Reachable, Measure, Inline, Inv, Live, AllFinished;
    if s.stack == [] || s.stack == [Probe] {
      s' := s;
    } else {
      ReachableInv(p, s);
      if Top(s).Probe? { HeldIsLive(p, s, a); }
      if |s.stack| == 1 { assert s.stack == [Top(s)]; }
      var s1 := InlineStep(p, s, Some(a));
      s' := HeldBack(p, s1, a);
    }
  }

  /** A task cannot have been submitted while one that it depends on directly is still queued. */
  lemma NotYet(p: Plan, s: State, t: TaskId, d: TaskId)
    requires Safe(p, s) && t in p.deps && d in p.deps[t] && d in p.deps && FateOf(p, d).ran
    requires d in s.jobs ==> s.jobs[d].stage.Queued?
    ensures t !in s.jobs
  {
    assert TaskInv(p, s, t) && TaskInv(p, s, d);
  }

  /** The held task finishes at the test, after all, and the guard fires. */
  lemma HeldFires(p: Plan, s: State, a: TaskId) returns (s': State)
    requires Reachable(p, s) && Inline(s, Some(a)) && s.stack == [Probe] && a in s.jobs && s.jobs[a].stage.Queued?
    ensures Reachable(p, s') && s'.done && !s'.closed && !s'.kickoff && s'.jobs.Keys == s.jobs.Keys
  {
    hide FateOf, Reachable, Measure, Plan.Validated, Ranked, Claimed;
    ReachableInv(p, s);
    HasThread(p, s);
    InlineThread(s, Some(a), a);
    var s1, raised := WorkerFinishes(p, s, a);
    forall x | x in s1.jobs ensures Done(s1, x) { assert x != a ==> Placed(s, Some(a), x); }
    Races.FireStep(p, s1);
    s' := s1.(stack := [], kickoff := false, done := true, guard := true);
  }

  lemma HasThread(p: Plan, s: State)
    requires Reachable(p, s)
    ensures p.workers >= 1
  {
    hide FateOf, Follows;
  }

  /** With two threads, some run ends without executing a task that depends directly on another
      one, where the evaluator executes both. */
  lemma DependentCanBeLost(p: Plan, t: TaskId, d: TaskId) returns (s: State)
    requires p.Validated() && p.workers >= 2 && t in p.deps && d in p.deps[t] && d in p.deps && FateOf(p, d).ran
    ensures Reachable(p, s) && Quiescent(s) && t !in s.jobs
  {
    hide FateOf, Reachable, Inline, Safe, StackInv, ExitInv, RefusedInv, FlagInv, Quiescent;
    InitReachable(p);
    StartsInline(p, Some(d));
    var s1 := HeldBack(p, Init(p), d);
    ReachableInv(p, s1);
    HeldIsLive(p, s1, d);
    NotYet(p, s1, t, d);
    OpenInline(s1, Some(d));
    var s2 := s1;
    if s1.stack != [] { s2 := HeldFires(p, s1, d); }
    ReachableInv(p, s2);
    if s2.stack == [] { FreeLock(p, s2); }
    Races.CloseStep(p, s2);
    s := RunsToTheEnd(p, s2.(closed := true));
  }

  /** Two PENDING tasks, one depending on the other, with two threads: the second may never run. */
  lemma PairCanBeLost()
    ensures var p := Races.Pair(Pending).(workers := 2);
            p.Validated() && exists s :: Reachable(p, s) && Quiescent(s) && 1 !in s.jobs
  {
    hide Reachable, Quiescent;
    var p := Races.Pair(Pending).(workers := 2);
    assert p.deps[1] == [0] && p.deps[0] == [];
    assert 0 in p.deps[1];
    assert FateOf(p, 0).ran;
    var s := DependentCanBeLost(p, 1, 0);
  }
}
