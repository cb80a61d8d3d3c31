/** Which graphs are certain to end at the evaluator, told before the run. */
module EntryConfluence {
  import opened Lifecycle
  import opened Scheduling
  import opened Safety
  import opened Control
  import opened Confluence
  import opened FirstSchedule
  import opened InlineRuns

  // ---- The evaluator --------------------------------------------------------------------------

  /** `t` comes to rest in the first `schedule()`: it is in a sink, or blocked by a dependency
      that comes to rest there. */
  ghost predicate SettledFirst(p: Plan, t: TaskId)
    requires p.Validated() && t in p.deps
    decreases p.rank[t]
  {
    p.entry[t].IsSink()
    || (p.entry[t].Pending? && t !in p.finals
        && exists d :: d in p.deps[t] && SettledFirst(p, d) && !p.entry[d].Succeeded?)
  }

  /** `t` is submitted in the first `schedule()`, whatever workers do. */
  ghost predicate SubmittedFirst(p: Plan, t: TaskId)
    requires p.Validated() && t in p.deps
  {
    && !p.entry[t].IsSink()
    && if t in p.finals then forall d :: d in p.deps[t] ==> SettledFirst(p, d)
       else forall d :: d in p.deps[t] ==> p.entry[d].Succeeded?
  }

  /** While no worker has moved, what is inactive has settled first, and what is submitted is
      submitted first. */
  lemma {:induction false} InactiveSettledFirst(p: Plan, s: State, d: TaskId)
    requires Inv(p, s) && Unstarted(s) && d in p.deps && Inactive(p, s, d)
    ensures SettledFirst(p, d) && (s.status[d].IsBad() ==> !p.entry[d].Succeeded?)
    decreases p.rank[d]
  {
    hide FateOf;
    assert TaskInv(p, s, d);
    if d in s.blame {
      var b := s.blame[d];
      InactiveSettledFirst(p, s, b);
    }
  }

  lemma FirstSubmissionsAre(p: Plan, s: State, t: TaskId)
    requires Inv(p, s) && Unstarted(s) && t in s.jobs && t in p.deps
    ensures SubmittedFirst(p, t)
  {
    hide FateOf;
    assert TaskInv(p, s, t);
    forall d | d in p.deps[t]
      ensures if t in p.finals then SettledFirst(p, d) else p.entry[d].Succeeded?
    {
      assert TaskInv(p, s, d);
      if t in p.finals { InactiveSettledFirst(p, s, d); }
    }
  }

  // ---- What workers cannot disturb --------------------------------------------------------------

  /** `schedule()` has something to do about `x`, for reasons that lie in tasks not submitted. */
  ghost predicate StaticAct(p: Plan, s: State, x: TaskId)
    requires Fits(p, s) && x in p.deps
  {
    && x !in s.jobs && !Skipped(p, s, x)
    && if x !in p.finals && exists d :: d in p.deps[x] && d !in s.jobs && BadParent(p, s, d) then s.status[x].Pending?
       else if x in p.finals then forall d :: d in p.deps[x] ==> d !in s.jobs && Inactive(p, s, d)
       else forall d :: d in p.deps[x] ==> d !in s.jobs && s.status[d].Succeeded?
  }

  lemma StaticActIsAct(p: Plan, s: State, x: TaskId)
    requires Safe(p, s) && x in p.deps && StaticAct(p, s, x)
    ensures CanAct(p, s, x)
  {
    hide FateOf;
    assert TaskInv(p, s, x);
    if FirstBad(p, s, p.deps[x]).None? || x in p.finals { assert Ready(p, s, x); }
  }

  /** A pass has found no such thing to do up to position `i`. */
  ghost predicate StaticTo(p: Plan, s: State, i: nat)
    requires Fits(p, s)
  {
    forall j {:trigger p.order[j]} ::
      0 <= j < i && j < |p.order| && p.order[j] in p.deps ==> !StaticAct(p, s, p.order[j])
  }

  /** Every task that can be submitted at first has been. */
  ghost predicate AllFirst(p: Plan, s: State)
    requires Fits(p, s)
  {
    forall t {:trigger SubmittedFirst(p, t)} :: t in p.deps && SubmittedFirst(p, t) ==> t in s.jobs
  }

  /** What a pass without changes has established. */
  ghost predicate FirstInv(p: Plan, s: State)
    requires Fits(p, s)
  {
    && (s.stack != [] && Top(s).Scan? && !Top(s).changed ==> StaticTo(p, s, Top(s).i))
    && (s.stack != [] && Top(s).Probe? ==> AllFirst(p, s))
    && (s.done ==> AllFirst(p, s))
  }

  lemma {:induction false} SettledFirstHolds(p: Plan, s: State, t: TaskId)
    requires Safe(p, s) && t in p.deps && SettledFirst(p, t)
    requires forall x {:trigger StaticAct(p, s, x)} :: x in p.deps ==> !StaticAct(p, s, x)
    ensures t !in s.jobs && Inactive(p, s, t) && (!p.entry[t].Succeeded? ==> BadParent(p, s, t))
    decreases p.rank[t]
  {
    hide FateOf;
    assert TaskInv(p, s, t);
    if !p.entry[t].IsSink() {
      var d :| d in p.deps[t] && SettledFirst(p, d) && !p.entry[d].Succeeded?;
      SettledFirstHolds(p, s, d);
      assert TaskInv(p, s, d);
      assert !StaticAct(p, s, t);
    }
  }

  /** Nothing of that kind left to do: all first submissions have been made. */
  lemma StaticFixpoint(p: Plan, s: State)
    requires Safe(p, s)
    requires forall x {:trigger StaticAct(p, s, x)} :: x in p.deps ==> !StaticAct(p, s, x)
    ensures AllFirst(p, s)
  {
    hide FateOf, StaticAct;
    forall t | t in p.deps && SubmittedFirst(p, t) ensures t in s.jobs { SubmittedFirstHolds(p, s, t); }
  }

  lemma SubmittedFirstHolds(p: Plan, s: State, t: TaskId)
    requires Safe(p, s) && t in p.deps && SubmittedFirst(p, t)
    requires forall x {:trigger StaticAct(p, s, x)} :: x in p.deps ==> !StaticAct(p, s, x)
    ensures t in s.jobs
  {
    hide FateOf, StaticAct;
    forall d | d in p.deps[t]
      ensures d !in s.jobs && (if t in p.finals then Inactive(p, s, d) else s.status[d].Succeeded?)
    {
      assert TaskInv(p, s, d);
      if t in p.finals { SettledFirstHolds(p, s, d); }
    }
    if t !in s.jobs { SubmittedIsStatic(p, s, t); }
  }

  lemma SubmittedIsStatic(p: Plan, s: State, t: TaskId)
    requires Safe(p, s) && t in p.deps && SubmittedFirst(p, t) && t !in s.jobs
    requires forall d :: d in p.deps[t] ==>
               d !in s.jobs && if t in p.finals then Inactive(p, s, d) else s.status[d].Succeeded?
    ensures StaticAct(p, s, t)
  {
    hide FateOf;
    assert TaskInv(p, s, t);
    forall d | d in p.deps[t] ensures TaskInv(p, s, d) {}
  }

  // ---- Every step keeps it ------------------------------------------------------------------------

  /** Tasks not submitted look the same. */
  ghost predicate SameIdle(s: State, s': State) {
    && s'.jobs.Keys == s.jobs.Keys && s'.status.Keys == s.status.Keys
    && forall d {:trigger s'.status[d]} {:trigger s.status[d]} :: d in s.status && d !in s.jobs ==>
         s'.status[d] == s.status[d] && (d in s'.errors <==> d in s.errors)
  }

  lemma StaticSame(p: Plan, s: State, s': State, x: TaskId)
    requires Fits(p, s) && Fits(p, s') && SameIdle(s, s') && x in p.deps && StaticAct(p, s', x)
    ensures StaticAct(p, s, x)
  {
    hide FateOf;
    forall d | d in p.deps[x] && d !in s.jobs
      ensures (BadParent(p, s', d) <==> BadParent(p, s, d)) && (Inactive(p, s', d) <==> Inactive(p, s, d))
      ensures s'.status[d] == s.status[d]
    {
      assert s'.status[d] == s.status[d];
    }
  }

  lemma StaticToSame(p: Plan, s: State, s': State, i: nat)
    requires Fits(p, s) && Fits(p, s') && SameIdle(s, s') && StaticTo(p, s, i)
    ensures StaticTo(p, s', i)
  {
    hide FateOf, StaticAct, SameIdle;
    forall j | 0 <= j < i && j < |p.order| && p.order[j] in p.deps ensures !StaticAct(p, s', p.order[j]) {
      if StaticAct(p, s', p.order[j]) { StaticSame(p, s, s', p.order[j]); }
    }
  }

  lemma StaticEverywhere(p: Plan, s: State)
    requires Safe(p, s) && StaticTo(p, s, |p.order|)
    ensures AllFirst(p, s)
  {
    hide FateOf, StaticAct, AllFirst;
    forall x | x in p.deps ensures !StaticAct(p, s, x) {
      assert x in p.order;
      var j :| 0 <= j < |p.order| && p.order[j] == x;
    }
    StaticFixpoint(p, s);
  }

  lemma AllFirstGrows(p: Plan, s: State, s': State)
    requires Fits(p, s) && Fits(p, s') && AllFirst(p, s) && s.jobs.Keys <= s'.jobs.Keys
    ensures AllFirst(p, s')
  {
    hide FateOf, SubmittedFirst;
  }

  lemma UnclaimedFirst(p: Plan, s: State, s': State)
    requires Fits(p, s) && Fits(p, s') && FirstInv(p, s) && Unclaimed(s')
    requires s.jobs.Keys <= s'.jobs.Keys && (s'.done ==> s.done)
    ensures FirstInv(p, s')
  {
    hide FateOf, AllFirst, StaticAct;
    if s.done { AllFirstGrows(p, s, s'); }
  }

  lemma PassedOverFirst(p: Plan, s: State, i: nat, changed: bool)
    requires Safe(p, s) && FirstInv(p, s) && s.stack != [] && Top(s) == Scan(i, changed)
    requires i < |p.order| && p.order[i] in p.deps && !CanAct(p, s, p.order[i])
    ensures Fits(p, Retop(s, Scan(i + 1, changed))) && FirstInv(p, Retop(s, Scan(i + 1, changed)))
  {
    hide FateOf, StaticAct, AllFirst, CanAct;
    var s' := Retop(s, Scan(i + 1, changed));
    assert Top(s') == Scan(i + 1, changed);
    if s.done { AllFirstGrows(p, s, s'); }
    if !changed {
      if StaticAct(p, s, p.order[i]) { StaticActIsAct(p, s, p.order[i]); }
      assert StaticTo(p, s, i + 1);
      StaticToSame(p, s, s', i + 1);
    }
  }

  lemma VisitFirst(p: Plan, s: State, i: nat, changed: bool)
    requires Fits(p, s) && Inv(p, s) && FirstInv(p, s) && s.stack != [] && Top(s) == Scan(i, changed)
    requires i < |p.order| && Fits(p, Visit(p, s, i, changed))
    ensures FirstInv(p, Visit(p, s, i, changed))
  {
    hide FateOf, Plan.Validated, Ranked, Submits, Blocks, FirstBad, Pop, FirstInv, Safe, RefusedInv, ExitInv;
    var t, s' := p.order[i], Visit(p, s, i, changed);
    InOrder(p, s, i);
    PopFields(s);
    if Blocks(p, s, t) {
      assert Top(s') == Scan(i + 1, true);
      UnclaimedFirst(p, s, s');
    } else if !Submits(p, s, t) {
      PassedOverFirst(p, s, i, changed);
    } else if s.closed {
      PoppedIsUnclaimed(p, s, s');
      UnclaimedFirst(p, s, s');
    } else {
      assert Top(s') == Attach(i, t);
      UnclaimedFirst(p, s, s');
    }
  }

  lemma JudgeFirst(p: Plan, s: State)
    requires Fits(p, s) && Inv(p, s) && FirstInv(p, s) && s.stack != [] && Fits(p, Advanced(p, s))
    requires Top(s).Probe? || (Top(s).Scan? && Top(s).i == |p.order| && !Top(s).changed)
    ensures FirstInv(p, Advanced(p, s))
  {
    hide FateOf, Plan.Validated, Ranked, Pop, AllFinished, Live, StaticTo, AllFirst, RefusedInv, ExitInv,
        Safe;
    var s' := Advanced(p, s);
    PopFields(s);
    if Top(s).Scan? { StaticEverywhere(p, s); }
    AllFirstGrows(p, s, s');
    if s'.stack == s.stack[..|s.stack| - 1] { PoppedIsUnclaimed(p, s, s'); } else { assert Top(s') == Probe; }
    NothingToScan(p, s');
  }

  lemma NothingToScan(p: Plan, s: State)
    requires Fits(p, s)
    ensures StaticTo(p, s, 0)
  {
  }

  lemma AttachFirst(p: Plan, s: State)
    requires Fits(p, s) && FirstInv(p, s) && s.stack != [] && Top(s).Attach? && Fits(p, Advanced(p, s))
    ensures FirstInv(p, Advanced(p, s))
  {
    hide FateOf, Plan.Validated, Ranked, FirstInv, AttachHook;
    var Attach(i, t) := Top(s);
    AttachOnlyControl(s, i, t);
    AttachFlags(s, i, t);
    AttachedIsUnclaimed(s, i, t);
    UnclaimedFirst(p, s, Advanced(p, s));
  }

  lemma AttachedIsUnclaimed(s: State, i: nat, t: TaskId)
    requires s.stack != [] && t in s.jobs
    ensures Unclaimed(AttachHook(s, i, t))
  {
    var s' := AttachHook(s, i, t);
    assert Top(s') == Scan(i + 1, true) || Top(s') == Scan(0, false);
  }

  lemma AdvanceFirst(p: Plan, s: State)
    requires Fits(p, s) && Inv(p, s) && FirstInv(p, s) && s.stack != [] && Fits(p, Advanced(p, s))
    ensures FirstInv(p, Advanced(p, s))
  {
    hide FateOf, Plan.Validated, Ranked, Visit, Pop, AllFinished, Live, FirstInv, Safe, StackInv, RefusedInv, ExitInv,
        AttachHook;
    var s' := Advanced(p, s);
    if Top(s).Scan? && Top(s).i < |p.order| {
      VisitFirst(p, s, Top(s).i, Top(s).changed);
    } else if Top(s).Scan? && Top(s).changed {
      assert Top(s') == Scan(0, false);
      UnclaimedFirst(p, s, s');
    } else if Top(s).Attach? {
      AttachFirst(p, s);
    } else {
      if Top(s).Scan? { TopInRange(p, s); }
      JudgeFirst(p, s);
    }
  }

  /** Workers and the main thread change only submitted tasks, and neither activations nor `done`. */
  lemma OthersLeaveIdle(p: Plan, s: State, l: Step)
    requires CanStep(p, s, l) && !l.Advance? && !l.Callback?
    ensures var s' := Next(p, s, l); s'.stack == s.stack && s'.done == s.done && SameIdle(s, s')
  {
    hide FateOf, Plan.Validated, Ranked, Claimed, Upstream, Marked, Plan.Result, SameIdle, Restage;
    var s' := Next(p, s, l);
    match l
    case Start(t) => RestageKeepsIdle(s, t, Working, Running);
    case Reject(t) => RestageKeepsIdle(s, t, Settled, Failed);
    case Settle(t) =>
      DependenciesKnown(p, s, t);
      RestageKeepsIdle(s, t, Settled, p.Result(t, Upstream(p, s, t)));
    case Resolve(t) => RestageKeepsIdle(s, t, Resolved(!s.status[t].Succeeded?), s.status[t]);
    case Close => SameIdleFields(s, s');
  }

  lemma RestageKeepsIdle(s: State, t: TaskId, stage: Stage, status: Status)
    requires t in s.jobs && t in s.status
    ensures var s' := Restage(s, t, stage, status);
            && s'.stack == s.stack && s'.done == s.done
            && forall late :: SameIdle(s, s') && SameIdle(s, s'.(late := late))
  {
  }

  lemma SameIdleFields(s: State, s': State)
    requires s'.status == s.status && s'.jobs == s.jobs && s'.errors == s.errors
    ensures SameIdle(s, s')
  {
  }

  lemma WorkerFirst(p: Plan, s: State, l: Step)
    requires Fits(p, s) && FirstInv(p, s) && CanStep(p, s, l) && !l.Advance? && !l.Callback? && Fits(p, Next(p, s, l))
    ensures FirstInv(p, Next(p, s, l))
  {
    hide FateOf, Plan.Validated, Ranked, CanStep, Scheduling.Next, StaticTo, AllFirst;
    var s' := Next(p, s, l);
    OthersLeaveIdle(p, s, l);
    assert s'.stack != [] ==> Top(s') == Top(s);
    if s.stack != [] && Top(s).Scan? && !Top(s).changed { StaticToSame(p, s, s', Top(s).i); }
    if AllFirst(p, s) { AllFirstGrows(p, s, s'); }
  }

  lemma FirstStep(p: Plan, s: State, l: Step)
    requires Inv(p, s) && FirstInv(p, s) && CanStep(p, s, l)
    ensures Inv(p, Next(p, s, l)) && FirstInv(p, Next(p, s, l))
  {
    hide FateOf, Plan.Validated, Ranked, Advanced, FirstInv, StackInv, RefusedInv, ExitInv;
    StepKeeps(p, s, l);
    if l.Advance? {
      AdvanceFirst(p, s);
    } else if l.Callback? {
      assert Top(Next(p, s, l)) == Scan(0, false);
      UnclaimedFirst(p, s, Next(p, s, l));
    } else {
      WorkerFirst(p, s, l);
    }
  }

  lemma {:induction false} FirstRun(p: Plan, s: State, ls: seq<Step>, s': State)
    requires Inv(p, s) && FirstInv(p, s) && Follows(p, s, ls, s')
    ensures Inv(p, s') && FirstInv(p, s')
    decreases |ls|
  {
    hide FateOf, FirstInv;
    if ls != [] {
      FirstStep(p, s, ls[0]);
      FirstRun(p, Next(p, s, ls[0]), ls[1..], s');
    }
  }


  // ---- Which graphs are certain to end at the evaluator -------------------------------------------

  /** Every task that is executed at all is submitted in the first `schedule()`. */
  ghost predicate RunsFirst(p: Plan)
    requires p.Validated()
  {
    forall t {:trigger SubmittedFirst(p, t)} :: t in p.deps && FateOf(p, t).ran ==> SubmittedFirst(p, t)
  }

  lemma RefusedIsNotFirst(p: Plan, s: State)
    requires Inv(p, s) && RunsFirst(p) && s.refused != {}
    ensures s.done && !AllFirst(p, s)
  {
    hide FateOf, SubmittedFirst;
    var t :| t in s.refused;
    assert SubmittedFirst(p, t);
  }

  /** Such a graph ends at the evaluator's fates in every interleaving, for every entry and every
      pool, with or without the no-progress error. */
  lemma RunsFirstAreConfluent(p: Plan, s: State)
    requires Reachable(p, s) && RunsFirst(p)
    ensures s.refused == {}
    ensures Quiescent(s) ==> forall t :: t in p.deps ==> Agrees(p, s, t)
  {
    hide FateOf, SubmittedFirst;
    var ls :| Follows(p, Init(p), ls, s);
    InitInv(p);
    assert Top(Init(p)) == Scan(0, false);
    FirstRun(p, Init(p), ls, s);
    if s.refused != {} { RefusedIsNotFirst(p, s); }
    if Quiescent(s) { FinalIffNothingRefused(p, s); }
  }

  // ---- When another can lose a task -----------------------------------------------------------------

  /** The tasks submitted by the first `schedule()` while no worker has moved. */
  ghost function FirstBatch(p: Plan): set<TaskId>
    requires p.Validated()
  {
    set t | t in p.deps && SubmittedFirst(p, t)
  }

  /** The first `schedule()` finds every task that enters PENDING blocked by then. */
  ghost predicate EndsFirst(p: Plan)
    requires p.Validated()
  {
    forall t {:trigger SettledFirst(p, t)} :: t in p.deps && p.entry[t].Pending? ==> SettledFirst(p, t)
  }

  /** No finally task that is executed waits for a task that the run blocks. */
  ghost predicate PlainFinals(p: Plan)
    requires p.Validated()
  {
    forall t, d {:trigger d in p.deps[t]} ::
      t in p.finals && t in p.deps && d in p.deps[t] && d in p.deps && FateOf(p, t).ran ==>
        FateOf(p, d).ran || p.entry[d].IsSink()
  }

  lemma FirstJobs(p: Plan, s: State)
    requires Inv(p, s) && Unstarted(s)
    ensures p.Validated() && |s.jobs| <= |FirstBatch(p)|
  {
    hide FateOf, SubmittedFirst;
    forall t | t in s.jobs ensures t in FirstBatch(p) { FirstSubmissionsAre(p, s, t); }
    Smaller(s.jobs.Keys, FirstBatch(p));
    assert |s.jobs.Keys| == |s.jobs|;
  }

  lemma NothingStaticLeft(p: Plan, s: State, x: TaskId)
    requires Inv(p, s) && Unstarted(s) && s.stack == [Probe] && x in p.deps
    ensures !StaticAct(p, s, x)
  {
    hide FateOf, StaticAct;
    if StaticAct(p, s, x) {
      StaticActIsAct(p, s, x);
      ScannedAll(p, s, x);
    }
  }

  /** Then that call ends by itself, without coming to its test. */
  lemma EndsByItself(p: Plan, s: State)
    requires Inv(p, s) && Unstarted(s) && EndsFirst(p)
    ensures s.stack != [Probe]
  {
    hide FateOf, SettledFirst, StaticAct;
    if s.stack == [Probe] {
      forall x | x in p.deps ensures !StaticAct(p, s, x) { NothingStaticLeft(p, s, x); }
      forall t | t in p.deps ensures Finished(s, t) {
        assert TaskInv(p, s, t);
        if p.entry[t].Pending? { SettledFirstHolds(p, s, t); }
      }
      assert false;
    }
  }

  lemma NotFirstIsLost(p: Plan, t: TaskId) returns (s: State)
    requires p.Validated() && t in p.deps && !SubmittedFirst(p, t) && (|FirstBatch(p)| <= p.workers || EndsFirst(p))
    ensures Reachable(p, s) && Quiescent(s) && t !in s.jobs
  {
    hide FateOf, SubmittedFirst, Reachable, Unstarted, EndsFirst;
    var s0 := FirstScheduleEnds(p);
    ReachableInv(p, s0);
    if t in s0.jobs { FirstSubmissionsAre(p, s0, t); }
    FirstJobs(p, s0);
    if EndsFirst(p) { EndsByItself(p, s0); }
    s := EndsAfterFirst(p, s0);
  }

  /** A task to be executed, but not submitted first, depends on another one to be executed. */
  lemma LateDependsOnRan(p: Plan, t: TaskId) returns (d: TaskId)
    requires p.Validated() && PlainFinals(p) && t in p.deps && FateOf(p, t).ran && !SubmittedFirst(p, t)
    ensures d in p.deps[t] && d in p.deps && FateOf(p, d).ran
  {
    if t in p.finals {
      d :| d in p.deps[t] && !SettledFirst(p, d);
    } else {
      d :| d in p.deps[t] && !p.entry[d].Succeeded?;
    }
  }

  /** There is a thread for every task that the first `schedule()` submits, or that call ends by
      itself, or there are two threads and the finally tasks are plain. */
  ghost predicate Roomy(p: Plan)
    requires p.Validated()
  {
    |FirstBatch(p)| <= p.workers || EndsFirst(p) || (p.workers >= 2 && PlainFinals(p))
  }

  /** Any other graph can lose a task that the first `schedule()` does not submit. */
  lemma LateTaskCanBeLost(p: Plan, t: TaskId) returns (s: State)
    requires p.Validated() && Roomy(p) && t in p.deps && FateOf(p, t).ran && !SubmittedFirst(p, t)
    ensures Reachable(p, s) && Quiescent(s) && t !in s.jobs && s.refused != {}
  {
    hide FateOf, SubmittedFirst, Reachable, EndsFirst, PlainFinals, Quiescent;
    if |FirstBatch(p)| <= p.workers || EndsFirst(p) {
      s := NotFirstIsLost(p, t);
    } else {
      var d := LateDependsOnRan(p, t);
      s := DependentCanBeLost(p, t, d);
    }
    ReachableInv(p, s);
    FinalIffNothingRefused(p, s);
    assert !Agrees(p, s, t);
  }

  /** For every entry, every finished run agrees with the evaluator if and only if every task
      that is executed is submitted in the first `schedule()`. */
  lemma ConfluentIffRunsFirst(p: Plan)
    requires p.Validated() && Roomy(p)
    ensures (forall s :: Reachable(p, s) && Quiescent(s) ==> forall t :: t in p.deps ==> Agrees(p, s, t))
       <==> RunsFirst(p)
  {
    hide FateOf, SubmittedFirst, Follows, Agrees, Roomy, Quiescent;
    if RunsFirst(p) {
      forall s | Reachable(p, s) && Quiescent(s) ensures forall t :: t in p.deps ==> Agrees(p, s, t) {
        RunsFirstAreConfluent(p, s);
      }
    } else {
      var t :| t in p.deps && FateOf(p, t).ran && !SubmittedFirst(p, t);
      var s := LateTaskCanBeLost(p, t);
      ConfluenceIffNothingRefused(p, s);
    }
  }

  /** From a fresh entry the final statuses alone tell. */
  lemma FreshConfluentIffRunsFirst(p: Plan)
    requires p.Validated() && p.Fresh() && Roomy(p)
    ensures (forall s :: Reachable(p, s) && Quiescent(s) ==>
               forall t :: t in p.deps ==> t in s.status && s.status[t] == Eval(p, t))
            <==> RunsFirst(p)
  {
    hide FateOf, SubmittedFirst, Reachable, Eval, Roomy, Quiescent;
    if RunsFirst(p) {
      forall s | Reachable(p, s) && Quiescent(s)
        ensures forall t :: t in p.deps ==> t in s.status && s.status[t] == Eval(p, t)
      {
        RunsFirstAreConfluent(p, s);
        FreshConfluence(p, s);
        ReachableFits(p, s);
      }
    } else {
      var t :| t in p.deps && FateOf(p, t).ran && !SubmittedFirst(p, t);
      var s := LateTaskCanBeLost(p, t);
      FreshConfluence(p, s);
      ReachableFits(p, s);
    }
  }

  // ---- In terms of direct dependencies ----------------------------------------------------------------

  /** What settles first is not executed, and has not succeeded unless it entered so. */
  lemma {:induction false} SettledFirstFate(p: Plan, t: TaskId)
    requires p.Validated() && t in p.deps && SettledFirst(p, t)
    ensures !FateOf(p, t).ran && (FateOf(p, t).status.Succeeded? ==> p.entry[t].Succeeded?)
    decreases p.rank[t]
  {
    if !p.entry[t].IsSink() {
      var d :| d in p.deps[t] && SettledFirst(p, d) && !p.entry[d].Succeeded?;
      SettledFirstFate(p, d);
    }
  }

  /** No task that is executed depends directly on another one. */
  ghost predicate Unchained(p: Plan)
    requires p.Validated()
  {
    forall t, d {:trigger d in p.deps[t]} ::
      t in p.deps && d in p.deps[t] && d in p.deps && FateOf(p, t).ran ==> !FateOf(p, d).ran
  }

  /** Where the finally tasks are plain, the condition is one on direct dependencies. */
  lemma RunsFirstIffUnchained(p: Plan)
    requires p.Validated() && PlainFinals(p)
    ensures RunsFirst(p) <==> Unchained(p)
  {
    hide FateOf;
    if RunsFirst(p) {
      forall t, d | t in p.deps && d in p.deps[t] && d in p.deps && FateOf(p, t).ran ensures !FateOf(p, d).ran {
        assert SubmittedFirst(p, t);
        EnteredFate(p, d);
        if t in p.finals { SettledFirstFate(p, d); }
      }
    }
    if Unchained(p) {
      forall t | t in p.deps && FateOf(p, t).ran ensures SubmittedFirst(p, t) {
        if !SubmittedFirst(p, t) { var d := LateDependsOnRan(p, t); }
      }
    }
  }

  lemma EnteredFate(p: Plan, d: TaskId)
    requires p.Validated() && d in p.deps
    ensures p.entry[d].IsSink() ==> !FateOf(p, d).ran
  {
  }
}
