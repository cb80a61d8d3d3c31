/** When the no-progress guard fires, when the pool rejects a submission, and which runs
    are therefore guaranteed to meet the evaluator. */
module Guard {
  import opened Lifecycle
  import opened Scheduling
  import opened Safety
  import opened Control
  import opened Confluence

  // ---- The guard ---------------------------------------------------------------------

  /** A carried-over task: it entered FAILED or BLOCKED and has not been submitted. */
  ghost predicate CarriedOver(p: Plan, s: State, d: TaskId) {
    d in p.entry && d !in s.jobs && (p.entry[d].Failed? || p.entry[d].Blocked?)
  }

  /** A PENDING task that waits for a carried-over direct dependency. */
  ghost predicate StuckOn(p: Plan, s: State, t: TaskId, d: TaskId) {
    && t in p.deps && t !in s.jobs && t in s.status && s.status[t].Pending?
    && d in p.deps[t] && CarriedOver(p, s, d)
  }

  /** With nothing live and nothing to act on, an unfinished task leads down to one that
      waits for a carried-over dependency. */
  lemma {:induction false} UnfinishedIsStuck(p: Plan, s: State, t: TaskId) returns (u: TaskId, d: TaskId)
    requires Safe(p, s) && t in p.deps && !Finished(s, t) && !Live(s)
    requires forall x {:trigger CanAct(p, s, x)} :: x in p.deps ==> !CanAct(p, s, x)
    ensures StuckOn(p, s, u, d)
    decreases p.rank[t]
  {
    hide FateOf;
    assert TaskInv(p, s, t) && !CanAct(p, s, t);
    assert t !in s.jobs && s.status[t].Pending?;
    if x :| x in p.deps[t] && !Finished(s, x) {
      u, d := UnfinishedIsStuck(p, s, x);
    } else {
      u := t;
      assert !(t !in p.finals && FirstBad(p, s, p.deps[t]).Some?);
      assert !Ready(p, s, t);
      if t in p.finals {
        d :| d in p.deps[t] && !Inactive(p, s, d);
      } else {
        d :| d in p.deps[t] && !s.status[d].Succeeded?;
        assert !BadParent(p, s, d);
      }
      assert TaskInv(p, s, d) && Finished(s, d);
    }
  }

  /** The guard fires only if a future completed under the held lock with its callback
      still waiting, or some PENDING task waits for a carried-over task that was never
      submitted. */
  lemma GuardCause(p: Plan, s: State, l: Step)
    requires Reachable(p, s) && CanStep(p, s, l) && !s.guard && Next(p, s, l).guard
    ensures LatePending(s) || exists t, d :: StuckOn(p, s, t, d)
  {
    hide FateOf;
    ReachableInv(p, s);
    HowDone(p, s, l);
    if !LatePending(s) {
      forall x | x in p.deps ensures !CanAct(p, s, x) {
        if CanAct(p, s, x) { ScannedAll(p, s, x); }
      }
      var t :| t in p.deps && !Finished(s, t);
      var u, d := UnfinishedIsStuck(p, s, t);
    }
  }

  /** A test that finds nothing live sees the same completions as the pass before it. */
  ghost predicate Orderly(s: State, l: Step) {
    l.Advance? && s.stack != [] && Top(s).Probe? && !Live(s) ==> !LatePending(s)
  }

  ghost predicate OrderlyRun(p: Plan, s: State, ls: seq<Step>, s': State)
    decreases |ls|
  {
    if ls == [] then s == s'
    else CanStep(p, s, ls[0]) && Orderly(s, ls[0]) && OrderlyRun(p, Next(p, s, ls[0]), ls[1..], s')
  }

  lemma FreshOrderlyStep(p: Plan, s: State, l: Step)
    requires Inv(p, s) && p.Fresh() && CanStep(p, s, l) && Orderly(s, l) && !s.guard
    ensures !Next(p, s, l).guard
  {
    hide FateOf, Advanced;
    if Next(p, s, l).guard {
      HowDone(p, s, l);
      forall x | x in p.deps ensures !CanAct(p, s, x) {
        if CanAct(p, s, x) { ScannedAll(p, s, x); }
      }
      var t :| t in p.deps && !Finished(s, t);
      var u, d := UnfinishedIsStuck(p, s, t);
    }
  }

  /** A waiting completion at a test that finds nothing live does make the guard fire. */
  lemma DisorderFires(p: Plan, s: State, l: Step)
    requires CanStep(p, s, l) && !Orderly(s, l)
    ensures Next(p, s, l).guard
  {
    hide FateOf, Plan.Validated, Ranked, Pop, LatePending;
    PopFields(s);
  }

  lemma {:induction false} GuardStays(p: Plan, s: State, ls: seq<Step>, s': State)
    requires Follows(p, s, ls, s') && s.guard
    ensures s'.guard
    decreases |ls|
  {
    hide FateOf;
    if ls != [] {
      FlagsStay(p, s, ls[0]);
      GuardStays(p, Next(p, s, ls[0]), ls[1..], s');
    }
  }

  lemma {:induction false} FreshOrderlyRun(p: Plan, s: State, ls: seq<Step>, s': State)
    requires Inv(p, s) && p.Fresh() && !s.guard && Follows(p, s, ls, s')
    ensures OrderlyRun(p, s, ls, s') <==> !s'.guard
    decreases |ls|
  {
    hide FateOf;
    if ls != [] {
      var s1 := Next(p, s, ls[0]);
      StepKeeps(p, s, ls[0]);
      if Orderly(s, ls[0]) {
        FreshOrderlyStep(p, s, ls[0]);
        FreshOrderlyRun(p, s1, ls[1..], s');
      } else {
        DisorderFires(p, s, ls[0]);
        GuardStays(p, s1, ls[1..], s');
      }
    }
  }

  /** From a fresh entry the guard fires if and only if some test for live futures finds none
      while a completion that came in under the held lock waits to be noticed. */
  lemma FreshGuardIffDisorder(p: Plan, ls: seq<Step>, s: State)
    requires p.Validated() && p.Fresh() && Follows(p, Init(p), ls, s)
    ensures OrderlyRun(p, Init(p), ls, s) <==> !s.guard
  {
    hide FateOf;
    InitInv(p);
    FreshOrderlyRun(p, Init(p), ls, s);
  }

  lemma {:induction false} OrderlyIsRun(p: Plan, s: State, ls: seq<Step>, s': State)
    requires OrderlyRun(p, s, ls, s')
    ensures Follows(p, s, ls, s')
    decreases |ls|
  {
    hide FateOf;
    if ls != [] { OrderlyIsRun(p, Next(p, s, ls[0]), ls[1..], s'); }
  }

  /** Such a run without disorder ends as it should: `done` means every task is terminal, and
      the final statuses are the evaluator's. */
  lemma OrderlyFreshRunsAreConfluent(p: Plan, ls: seq<Step>, s: State)
    requires p.Validated() && p.Fresh() && OrderlyRun(p, Init(p), ls, s)
    ensures Fits(p, s) && !s.guard
    ensures s.done ==> forall t :: t in p.deps ==> s.status[t].IsTerminal()
    ensures Quiescent(s) ==> forall t :: t in p.deps ==> s.status[t] == Eval(p, t)
  {
    hide FateOf;
    OrderlyIsRun(p, Init(p), ls, s);
    FreshGuardIffDisorder(p, ls, s);
    InitInv(p);
    FreshRun(p, Init(p), ls, s);
    if Quiescent(s) { FreshFinal(p, s); }
  }

  // ---- Runs that never have a submission rejected ----------------------------------------

  /** `done` is decided on an up-to-date view.  When a test finds nothing live, no completion
      is waiting to be noticed; when all tasks look finished, moreover, every future is done,
      so that no carried-over task is still queued. */
  ghost predicate Punctual(p: Plan, s: State, l: Step) {
    l.Advance? && Fits(p, s) && s.stack != [] ==>
      && (Top(s).Probe? && !Live(s) ==> !LatePending(s))
      && (Top(s).Scan? && Top(s).i >= |p.order| && !Top(s).changed && AllFinished(p, s) ==>
            !LatePending(s) && forall x :: x in s.jobs ==> Done(s, x))
  }

  ghost predicate PunctualRun(p: Plan, s: State, ls: seq<Step>, s': State)
    decreases |ls|
  {
    if ls == [] then s == s'
    else CanStep(p, s, ls[0]) && Punctual(p, s, ls[0]) && PunctualRun(p, Next(p, s, ls[0]), ls[1..], s')
  }

  /** After `done`, nothing is outstanding and nothing can act. */
  ghost predicate SettledForGood(p: Plan, s: State)
    requires Fits(p, s)
  {
    s.done ==>
      && s.refused == {}
      && (forall x :: x in s.jobs ==> Done(s, x))
      && (forall x {:trigger CanAct(p, s, x)} :: x in p.deps ==> !CanAct(p, s, x))
  }

  lemma SameActs(p: Plan, s: State, s': State)
    requires Fits(p, s) && Fits(p, s')
    requires forall d {:trigger SeesSame(p, s, s', d)} :: d in p.deps ==> SeesSame(p, s, s', d)
    requires forall x {:trigger CanAct(p, s, x)} :: x in p.deps ==> !CanAct(p, s, x)
    ensures forall x {:trigger CanAct(p, s', x)} :: x in p.deps ==> !CanAct(p, s', x)
  {
    hide FateOf;
    forall x | x in p.deps ensures !CanAct(p, s', x) { SameSightSameAct(p, s, s', x); }
  }

  /** Where only control moves, `schedule()` sees the same. */
  lemma OnlyControlSeesSame(p: Plan, s: State, s': State)
    requires Safe(p, s) && Safe(p, s') && OnlyControl(s, s')
    ensures forall d {:trigger SeesSame(p, s, s', d)} :: d in p.deps ==> SeesSame(p, s, s', d)
  {
    hide FateOf;
    forall d | d in p.deps ensures SeesSame(p, s, s', d) {
      assert TaskInv(p, s, d) && TaskInv(p, s', d);
    }
  }

  lemma DoneStepIsControl(p: Plan, s: State, l: Step)
    requires Inv(p, s) && SettledForGood(p, s) && s.done && CanStep(p, s, l)
    ensures var s' := Next(p, s, l);
            s'.done && s'.refused == {} && OnlyControl(s.(closed := s'.closed), s')
  {
    hide FateOf, Plan.Validated, Ranked, Safe, CanAct, StackInv, ExitInv, RefusedInv, OnlyControl, AttachHook, Visit;
    match l
    case Advance =>
      if Top(s).Scan? && Top(s).i < |p.order| { InOrder(p, s, Top(s).i); }
      IdleAdvance(p, s);
      FlagsStay(p, s, l);
      assert s.(closed := s.closed) == s;
      ControlFields(s, Next(p, s, l));
    case Close => OnlyControlRefl(Next(p, s, l));
    case Callback(t) =>
      OnFinishOnlyControl(s, t);
      LateIsControl(s, OnFinish(s, t));
      assert s.(closed := s.closed) == s;
  }

  lemma ControlFields(s: State, s': State)
    requires OnlyControl(s, s')
    ensures s'.refused == s.refused && s'.closed == s.closed
  {
  }

  lemma OnlyControlRefl(s: State)
    ensures OnlyControl(s, s)
  {
  }

  lemma LateIsControl(s: State, s': State)
    requires OnlyControl(s, s')
    ensures OnlyControl(s, s'.(late := {}))
    ensures s'.refused == s.refused && s'.closed == s.closed
  {
  }

  lemma PunctualStep(p: Plan, s: State, l: Step)
    requires Inv(p, s) && SettledForGood(p, s) && CanStep(p, s, l) && Punctual(p, s, l)
    ensures Inv(p, Next(p, s, l)) && SettledForGood(p, Next(p, s, l))
  {
    hide FateOf, Advanced, CanAct, StackInv, ExitInv, RefusedInv;
    StepKeeps(p, s, l);
    var s' := Next(p, s, l);
    if s.done {
      DoneStepIsControl(p, s, l);
      ClosingKeepsSafe(p, s, s'.closed);
      OnlyControlSeesSame(p, s.(closed := s'.closed), s');
      SameFieldsSeeSame(p, s, s.(closed := s'.closed));
      SameActs(p, s, s.(closed := s'.closed));
      SameActs(p, s.(closed := s'.closed), s');
    } else if s'.done {
      HowDone(p, s, l);
      NothingRefusedBeforeDone(p, s);
      PunctuallyDone(p, s, l);
      OnlyControlSeesSame(p, s, s');
      SameActs(p, s, s');
    }
  }

  lemma ClosingKeepsSafe(p: Plan, s: State, closed: bool)
    requires Safe(p, s)
    ensures Safe(p, s.(closed := closed))
  {
    hide FateOf;
    var s' := s.(closed := closed);
    assert s'.stack != [] ==> Top(s') == Top(s);
    ControlStepSafe(p, s, s');
  }

  lemma PunctuallyDone(p: Plan, s: State, l: Step)
    requires Inv(p, s) && l.Advance? && s.stack != [] && Punctual(p, s, l)
    requires (Top(s).Probe? && !Live(s))
          || (Top(s).Scan? && Top(s).i >= |p.order| && !Top(s).changed && AllFinished(p, s))
    ensures forall x :: x in s.jobs ==> Done(s, x)
    ensures forall x {:trigger CanAct(p, s, x)} :: x in p.deps ==> !CanAct(p, s, x)
  {
    hide FateOf, CanAct;
    forall x | x in p.deps ensures !CanAct(p, s, x) {
      if CanAct(p, s, x) { ScannedAll(p, s, x); }
    }
  }

  lemma {:induction false} PunctualRunSettles(p: Plan, s: State, ls: seq<Step>, s': State)
    requires Inv(p, s) && SettledForGood(p, s) && PunctualRun(p, s, ls, s')
    ensures Inv(p, s') && SettledForGood(p, s')
    decreases |ls|
  {
    hide FateOf;
    if ls != [] {
      PunctualStep(p, s, ls[0]);
      PunctualRunSettles(p, Next(p, s, ls[0]), ls[1..], s');
    }
  }

  /** Whatever a run enters with, if `done` is decided punctually then the run ends with
      every task at its fate, executed exactly when the evaluator says so. */
  lemma PunctualRunsAreConfluent(p: Plan, ls: seq<Step>, s: State)
    requires p.Validated() && PunctualRun(p, Init(p), ls, s)
    ensures Fits(p, s) && s.refused == {}
    ensures Quiescent(s) ==> forall t :: t in p.deps ==> Agrees(p, s, t)
  {
    hide FateOf;
    InitInv(p);
    PunctualRunSettles(p, Init(p), ls, s);
    if !s.done { NothingRefusedBeforeDone(p, s); }
    if Quiescent(s) { FinalIffNothingRefused(p, s); }
  }

  // ---- Recovery ----------------------------------------------------------------------------

  /** A rerun after the cause of failure is gone: nothing is CANCELLED and every handler
      now returns. */
  ghost predicate Recovering(p: Plan) {
    && (forall t :: t in p.entry ==> !p.entry[t].Cancelled?)
    && p.unhandled == {}
    && forall t, up :: p.handler(t, up) == Returned
  }

  lemma {:induction false} RecoveringFate(p: Plan, t: TaskId)
    requires p.Validated() && Recovering(p) && t in p.deps
    ensures FateOf(p, t) == Fate(Succeeded, !p.entry[t].Succeeded?)
    decreases p.rank[t]
  {
    forall d | d in p.deps[t] ensures FateOf(p, d) == Fate(Succeeded, !p.entry[d].Succeeded?) {
      RecoveringFate(p, d);
    }
  }

  /** Recovery over any mix of PENDING, SUCCEEDED, FAILED and BLOCKED entries: a finished
      run ends all SUCCEEDED if and only if the pool rejected nothing, and then it has
      executed every task that had not succeeded exactly once, and no other. */
  lemma RecoveryIffNothingRefused(p: Plan, s: State)
    requires Reachable(p, s) && Quiescent(s) && Recovering(p)
    ensures (forall t :: t in p.deps ==> s.status[t].Succeeded?) <==> s.refused == {}
    ensures s.refused == {} ==> forall t :: t in p.deps ==> (t in s.log <==> !p.entry[t].Succeeded?)
    ensures forall i, j :: 0 <= i < j < |s.log| ==> s.log[i] != s.log[j]
  {
    ReachableInv(p, s);
    FinalIffNothingRefused(p, s);
    forall t | t in p.deps ensures FateOf(p, t) == Fate(Succeeded, !p.entry[t].Succeeded?) {
      RecoveringFate(p, t);
    }
    hide FateOf;
    if s.refused == {} {
      forall t | t in p.deps ensures s.status[t].Succeeded? && (t in s.log <==> !p.entry[t].Succeeded?) {
        assert Agrees(p, s, t);
      }
    } else {
      var t :| t in s.refused;
      assert TaskInv(p, s, t);
      assert !s.status[t].Succeeded?;
    }
  }

  lemma {:induction false} PunctualIsRun(p: Plan, s: State, ls: seq<Step>, s': State)
    requires PunctualRun(p, s, ls, s')
    ensures Follows(p, s, ls, s')
    decreases |ls|
  {
    hide FateOf;
    if ls != [] { PunctualIsRun(p, Next(p, s, ls[0]), ls[1..], s'); }
  }

  /** When `done` is decided punctually, a rerun recovers completely. */
  lemma PunctualRerunsRecover(p: Plan, ls: seq<Step>, s: State)
    requires p.Validated() && Recovering(p) && PunctualRun(p, Init(p), ls, s) && Quiescent(s)
    ensures Fits(p, s) && forall t :: t in p.deps ==> s.status[t].Succeeded?
    ensures forall t :: t in p.deps ==> (t in s.log <==> !p.entry[t].Succeeded?)
  {
    hide FateOf;
    PunctualRunsAreConfluent(p, ls, s);
    PunctualIsRun(p, Init(p), ls, s);
    RecoveryIffNothingRefused(p, s);
  }

  // ---- The outcome predicate -----------------------------------------------------------------

  /** `TaskGraph.ok`: every required task succeeded and raised nothing. */
  ghost predicate Ok(members: set<TaskId>, status: map<TaskId, Status>, errors: set<TaskId>, optional: set<TaskId>)
    requires members <= status.Keys
  {
    forall t {:trigger status[t]} :: t in members && t !in optional ==> status[t].Succeeded? && t !in errors
  }

  /** After any run, recorded errors never contradict a SUCCEEDED status, so `ok` can be
      read off the statuses alone. */
  lemma ErrorsAreRedundant(p: Plan, s: State, optional: set<TaskId>)
    requires Reachable(p, s)
    ensures Ok(p.deps.Keys, s.status, s.errors, optional) <==> Ok(p.deps.Keys, s.status, {}, optional)
  {
    ReachableInv(p, s);
    forall t | t in p.deps ensures s.status[t].Succeeded? ==> t !in s.errors { assert TaskInv(p, s, t); }
  }

  /** After a fresh run whose guard did not fire, `ok` is true exactly when the evaluator
      gives SUCCEEDED for every required task. */
  lemma OkIffRequiredSucceed(p: Plan, s: State, optional: set<TaskId>)
    requires Reachable(p, s) && Quiescent(s) && p.Fresh() && !s.guard
    ensures Ok(p.deps.Keys, s.status, s.errors, optional)
       <==> forall t :: t in p.deps && t !in optional ==> Eval(p, t).Succeeded?
  {
    hide FateOf;
    FreshConfluence(p, s);
    ErrorsAreRedundant(p, s, optional);
    forall t | t in p.deps ensures s.status[t] == Eval(p, t) {}
  }
}
