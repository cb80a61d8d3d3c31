/** The thread pool: a run never uses more threads than it was given, and tasks get their
    threads in the order in which they were submitted. */
module Pool {
  import opened Lifecycle
  import opened Scheduling
  import opened Safety
  import opened Control
  import opened FirstSchedule

  /** No more threads are in use than there are, and a task that has got one was preceded in the
      queue by fewer tasks than there are threads. */
  ghost predicate WithinPool(p: Plan, s: State) {
    && Occupied(s) <= p.workers
    && forall t {:trigger Ahead(s, t)} :: t in s.jobs && !s.jobs[t].stage.Queued? ==> |Ahead(s, t)| < p.workers
  }

  /** No new thread is used and no task overtakes another one. */
  ghost predicate NoNewThread(s: State, s': State) {
    && Busy(s') <= Busy(s) && (s'.stack != [] && !s'.kickoff ==> s.stack != [] && !s.kickoff)
    && forall t {:trigger Ahead(s', t)} :: t in s'.jobs && !s'.jobs[t].stage.Queued? ==>
         t in s.jobs && !s.jobs[t].stage.Queued? && Ahead(s', t) <= Ahead(s, t)
  }

  lemma NoNewThreadStays(p: Plan, s: State, s': State)
    requires WithinPool(p, s) && NoNewThread(s, s')
    ensures WithinPool(p, s')
  {
    hide Ahead, Busy;
    Smaller(Busy(s'), Busy(s));
    forall t | t in s'.jobs && !s'.jobs[t].stage.Queued? ensures |Ahead(s', t)| < p.workers {
      assert Ahead(s', t) <= Ahead(s, t);
      Smaller(Ahead(s', t), Ahead(s, t));
    }
  }

  lemma BeginsWithin(p: Plan, s: State, t: TaskId, stage: Stage, status: Status)
    requires WithinPool(p, s) && t in s.jobs && s.jobs[t].stage.Queued? && Claimed(s, t) < p.workers
    requires stage.Working? || stage.Settled?
    ensures forall late :: WithinPool(p, Restage(s, t, stage, status).(late := late))
  {
    hide Precedes;
    forall late ensures WithinPool(p, Restage(s, t, stage, status).(late := late)) {
      var s' := Restage(s, t, stage, status).(late := late);
      assert Busy(s') == Busy(s) + {t};
      forall x | x in s'.jobs && !s'.jobs[x].stage.Queued? ensures |Ahead(s', x)| < p.workers {
        assert Ahead(s', x) <= Ahead(s, x);
        Smaller(Ahead(s', x), Ahead(s, x));
      }
    }
  }

  lemma SettlesWithin(s: State, t: TaskId, stage: Stage, status: Status)
    requires t in s.jobs && (s.jobs[t].stage.Working? || s.jobs[t].stage.Settled?)
        && (stage.Settled? || stage.Resolved?)
    ensures forall late :: NoNewThread(s, Restage(s, t, stage, status).(late := late))
  {
    hide Precedes;
  }

  /** The callback runs on the thread of its task. */
  lemma CallbackWithin(p: Plan, s: State, t: TaskId)
    requires WithinPool(p, s) && s.stack == [] && t in s.jobs && Done(s, t) && s.jobs[t].hook.Registered?
    ensures WithinPool(p, OnFinish(s, t).(late := {}))
  {
    hide Precedes;
    var s' := OnFinish(s, t).(late := {});
    assert Busy(s') == Busy(s) - {t} && t in Busy(s);
    forall x ensures Ahead(s', x) == Ahead(s, x) {}
  }

  /** The lock holder moves on, or adds or enters a callback. */
  ghost predicate OnlyHooks(s: State, s': State) {
    && s'.jobs.Keys == s.jobs.Keys && s'.log == s.log
    && (s'.stack != [] && !s'.kickoff ==> s.stack != [] && !s.kickoff)
    && (forall x {:trigger s'.jobs[x]} :: x in s.jobs ==> s'.jobs[x].stage == s.jobs[x].stage)
    && (forall x {:trigger s'.jobs[x]} :: x in s.jobs && Done(s, x) && s'.jobs[x].hook.Registered? ==>
          s.jobs[x].hook.Registered?)
  }

  lemma HooksKeepThreads(s: State, s': State)
    requires OnlyHooks(s, s')
    ensures NoNewThread(s, s')
  {
    hide Precedes;
    forall x ensures Ahead(s', x) == Ahead(s, x) {}
  }

  lemma PopIsQuiet(s: State, done: bool, guard: bool, refused: set<TaskId>)
    requires s.stack != []
    ensures OnlyHooks(s, Pop(s).(done := done, guard := guard, refused := refused))
  {
    PopFields(s);
  }

  lemma RetopIsQuiet(s: State, f: Frame, status: map<TaskId, Status>, blame: map<TaskId, TaskId>)
    requires s.stack != []
    ensures OnlyHooks(s, Retop(s, f).(status := status, blame := blame))
  {
  }

  lemma AttachIsQuiet(s: State, i: nat, t: TaskId)
    requires s.stack != [] && t in s.jobs
    ensures OnlyHooks(s, AttachHook(s, i, t))
  {
    var s1 := Retop(s, Scan(i + 1, true));
    assert s1.jobs == s.jobs && s1.log == s.log && s1.kickoff == s.kickoff;
    if Done(s, t) { HookIsQuiet(s, t, Entered); } else { HookIsQuiet(s, t, Registered); }
  }

  lemma HookIsQuiet(s: State, t: TaskId, h: Hook)
    requires t in s.jobs && (h.Entered? || !Done(s, t))
    ensures OnlyHooks(s, s.(jobs := s.jobs[t := s.jobs[t].(hook := h)]))
  {
  }

  /** A task submitted last is ahead of none. */
  lemma SubmittedLast(s: State, s': State, t: TaskId)
    requires FlagInv(s) && t !in s.jobs && s'.log == s.log + [t] && s'.jobs == s.jobs[t := Job(Queued, Unregistered)]
    requires s'.stack != [] && !s'.kickoff ==> s.stack != [] && !s.kickoff
    ensures NoNewThread(s, s')
  {
    hide Precedes;
    forall x | x in s.jobs ensures Ahead(s', x) <= Ahead(s, x) {
      forall y | y in Ahead(s', x) ensures y in Ahead(s, x) { PrecededBefore(s, t, y, x); }
    }
  }

  lemma PrecededBefore(s: State, t: TaskId, y: TaskId, x: TaskId)
    requires FlagInv(s) && t !in s.jobs && x in s.jobs && Precedes(s.log + [t], y, x)
    ensures Precedes(s.log, y, x) && y in s.jobs
  {
    var log := s.log + [t];
    var i, j :| 0 <= i < j < |log| && log[i] == y && log[j] == x;
    assert j != |s.log|;
    assert s.log[i] == y && s.log[j] == x;
    assert y in s.log;
  }

  lemma VisitWithin(p: Plan, s: State, i: nat, changed: bool)
    requires Fits(p, s) && Inv(p, s) && s.stack != [] && i < |p.order| && p.order[i] in p.deps
    ensures NoNewThread(s, Visit(p, s, i, changed))
  {
    hide FateOf, Plan.Validated, Ranked, Blocks, Submits, FirstBad, NoNewThread, OnlyHooks, Pop, Safe, StackInv,
        ExitInv, RefusedInv, FlagInv;
    var t, s' := p.order[i], Visit(p, s, i, changed);
    if Blocks(p, s, t) {
      RetopIsQuiet(s, Scan(i + 1, true), s'.status, s'.blame);
      HooksKeepThreads(s, s');
    } else if !Submits(p, s, t) {
      RetopIsQuiet(s, Scan(i + 1, changed), s.status, s.blame);
      HooksKeepThreads(s, s');
    } else if s.closed {
      PopFields(s);
      PopIsQuiet(s, s.done, s.guard, s.refused + {t});
      HooksKeepThreads(s, s');
    } else {
      NewTask(p, s, t);
      SubmittedLast(s, s', t);
    }
  }

  lemma NewTask(p: Plan, s: State, t: TaskId)
    requires Fits(p, s) && t in p.deps && Submits(p, s, t)
    ensures t !in s.jobs
  {
    hide FateOf;
  }

  lemma VerdictIsQuiet(p: Plan, s: State)
    requires Fits(p, s) && s.stack != [] && !Top(s).Attach? && (Top(s).Scan? ==> Top(s).i >= |p.order|)
    ensures OnlyHooks(s, Advanced(p, s))
  {
    hide FateOf, Plan.Validated, Ranked, Visit, AllFinished, Live, OnlyHooks, Pop, Retop, AttachHook;
    PopFields(s);
    PopIsQuiet(s, true, s.guard, s.refused);
    PopIsQuiet(s, true, true, s.refused);
    PopIsQuiet(s, s.done, s.guard, s.refused);
    RetopFields(s, Scan(0, false));
    RetopIsQuiet(s, Scan(0, false), s.status, s.blame);
    RetopFields(s, Probe);
    RetopIsQuiet(s, Probe, s.status, s.blame);
  }

  lemma RetopFields(s: State, f: Frame)
    requires s.stack != []
    ensures Retop(s, f).(status := s.status, blame := s.blame) == Retop(s, f)
  {
  }

  lemma AdvanceWithin(p: Plan, s: State)
    requires Fits(p, s) && Inv(p, s) && s.stack != []
    ensures NoNewThread(s, Advanced(p, s))
  {
    hide FateOf, Plan.Validated, Ranked, Visit, AllFinished, Live, NoNewThread, OnlyHooks, Pop, Inv, AttachHook;
    var s' := Advanced(p, s);
    if Top(s).Scan? && Top(s).i < |p.order| {
      InOrder(p, s, Top(s).i);
      VisitWithin(p, s, Top(s).i, Top(s).changed);
    } else {
      if Top(s).Attach? { AttachIsQuiet(s, Top(s).i, Top(s).tid); } else { VerdictIsQuiet(p, s); }
      HooksKeepThreads(s, s');
    }
  }

  lemma StepWithin(p: Plan, s: State, l: Step)
    requires Inv(p, s) && WithinPool(p, s) && CanStep(p, s, l)
    ensures WithinPool(p, Next(p, s, l))
  {
    hide FateOf, Plan.Validated, Ranked, Advanced, WithinPool, Claimed, Upstream, Marked, Plan.Result, Restage,
        NoNewThread, Inv, OnFinish;
    var s' := Next(p, s, l);
    match l
    case Start(t) => BeginsWithin(p, s, t, Working, Running);
    case Reject(t) => BeginsWithin(p, s, t, Settled, Failed);
    case Settle(t) =>
      DependenciesKnown(p, s, t);
      SettlesWithin(s, t, Settled, p.Result(t, Upstream(p, s, t)));
      NoNewThreadStays(p, s, s');
    case Resolve(t) =>
      SettlesWithin(s, t, Resolved(!s.status[t].Succeeded?), s.status[t]);
      NoNewThreadStays(p, s, s');
    case Callback(t) => CallbackWithin(p, s, t);
    case Advance =>
      AdvanceWithin(p, s);
      NoNewThreadStays(p, s, s');
    case Close => ClosingKeepsThreads(p, s);
  }

  lemma ClosingKeepsThreads(p: Plan, s: State)
    requires WithinPool(p, s)
    ensures WithinPool(p, s.(closed := true))
  {
    var s' := s.(closed := true);
    assert Busy(s') == Busy(s);
    forall x ensures Ahead(s', x) == Ahead(s, x) {}
  }

  lemma {:induction false} RunWithin(p: Plan, s: State, ls: seq<Step>, s': State)
    requires Inv(p, s) && WithinPool(p, s) && Follows(p, s, ls, s')
    ensures Inv(p, s') && WithinPool(p, s')
    decreases |ls|
  {
    hide FateOf, WithinPool;
    if ls != [] {
      StepKeeps(p, s, ls[0]);
      StepWithin(p, s, ls[0]);
      RunWithin(p, Next(p, s, ls[0]), ls[1..], s');
    }
  }

  lemma ReachableWithin(p: Plan, s: State)
    requires Reachable(p, s)
    ensures Inv(p, s) && WithinPool(p, s)
  {
    hide FateOf;
    var ls :| Follows(p, Init(p), ls, s);
    InitInv(p);
    assert Busy(Init(p)) == {};
    RunWithin(p, Init(p), ls, s);
  }

  ghost function RunningTasks(s: State): set<TaskId> {
    set t | t in s.status && s.status[t].Running?
  }

  /** In no reachable state are more tasks RUNNING than the pool has threads; and while the main
      thread does not hold the lock, the thread in `on_finish` counts as well. */
  lemma RunningWithinPool(p: Plan, s: State)
    requires Reachable(p, s)
    ensures |RunningTasks(s)| + (if s.stack != [] && !s.kickoff then 1 else 0) <= p.workers
  {
    hide FateOf, Follows;
    ReachableWithin(p, s);
    forall t | t in RunningTasks(s) ensures t in Busy(s) { assert TaskInv(p, s, t); }
    Smaller(RunningTasks(s), Busy(s));
  }

  /** Tasks start in the order of their submission: of those submitted before a task that has
      started, fewer than the pool has threads have not started yet; with one thread, none. */
  lemma StartedInOrder(p: Plan, s: State, t: TaskId)
    requires Reachable(p, s) && t in s.jobs && !s.jobs[t].stage.Queued?
    ensures |set x | x in s.jobs && s.jobs[x].stage.Queued? && Precedes(s.log, x, t)| < p.workers
    ensures p.workers == 1 ==>
              forall x :: x in s.jobs && Precedes(s.log, x, t) ==> !s.jobs[x].stage.Queued?
  {
    hide FateOf, Follows, Precedes;
    ReachableWithin(p, s);
    assert Ahead(s, t) == set x | x in s.jobs && s.jobs[x].stage.Queued? && Precedes(s.log, x, t);
    if p.workers == 1 {
      assert Ahead(s, t) == {};
      forall x | x in s.jobs && Precedes(s.log, x, t) ensures !s.jobs[x].stage.Queued? { assert x !in Ahead(s, t); }
    }
  }
}
