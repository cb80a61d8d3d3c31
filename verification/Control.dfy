/** Invariants of the lock holder: what a pass of `schedule()` has established, and why
    no task is ever left behind silently. */
module Control {
  import opened Lifecycle
  import opened Scheduling
  import opened Safety

  /** Some future has not had its callback run: another `schedule()` is still to come. */
  ghost predicate Owed(s: State) {
    exists x {:trigger x in s.jobs} :: x in s.jobs && !s.jobs[x].hook.Entered?
  }

  /** A worker settled or resolved `x` under the held lock, and its callback still waits. */
  ghost predicate LatePending(s: State) {
    exists x {:trigger x in s.late} :: x in s.late && x in s.jobs && !s.jobs[x].hook.Entered?
  }

  /** No task is left to act on, unless a late completion will bring it up again. */
  ghost predicate ScannedTo(p: Plan, s: State, i: nat)
    requires Fits(p, s) && i <= |p.order|
  {
    forall j {:trigger p.order[j]} ::
      0 <= j < i && p.order[j] in p.deps && CanAct(p, s, p.order[j]) ==> LatePending(s)
  }

  ghost predicate TopInv(p: Plan, s: State)
    requires Fits(p, s) && s.stack != []
  {
    match Top(s)
    case Scan(i, changed) => i <= |p.order| && (changed || ScannedTo(p, s, i))
    case Attach(i, t) => i < |p.order| && p.order[i] == t && t in s.jobs && s.jobs[t].hook.Unregistered?
    case Probe => ScannedTo(p, s, |p.order|) && (LatePending(s) || !AllFinished(p, s))
  }

  ghost predicate StackInv(p: Plan, s: State)
    requires Fits(p, s)
  {
    && (forall k :: 0 <= k < |s.stack| - 1 ==>
          s.stack[k].Scan? && s.stack[k].changed && s.stack[k].i <= |p.order|)
    && (s.stack != [] ==> TopInv(p, s))
    && (forall x :: x in s.jobs && s.jobs[x].hook.Unregistered? ==>
          s.stack != [] && Top(s).Attach? && Top(s).tid == x)
  }

  /** When the lock is free, either `done` is set or a callback is owed; and nothing can
      act unless a callback is owed or the closed pool has rejected a submission. */
  ghost predicate ExitInv(p: Plan, s: State)
    requires Fits(p, s)
  {
    s.stack == [] ==>
      && (s.done || Owed(s))
      && (forall t {:trigger CanAct(p, s, t)} :: t in p.deps && CanAct(p, s, t) ==> Owed(s) || s.refused != {})
  }

  ghost predicate RefusedInv(p: Plan, s: State)
    requires Fits(p, s)
  {
    && (s.refused != {} ==> s.closed)
    && (forall t :: t in s.refused ==> t in p.deps && t !in s.jobs && FateOf(p, t).ran)
  }

  ghost predicate FlagInv(s: State) {
    && (s.closed ==> s.done && !s.kickoff)
    && (s.kickoff ==> s.stack != [])
    && (s.guard ==> s.done)
    && (forall i, j :: 0 <= i < j < |s.log| ==> s.log[i] != s.log[j])
    && (forall t {:trigger t in s.log} :: t in s.log <==> t in s.jobs)
  }

  ghost predicate Inv(p: Plan, s: State) {
    Safe(p, s) && StackInv(p, s) && ExitInv(p, s) && RefusedInv(p, s) && FlagInv(s)
  }

  // ---- What schedule() reads, compared across states ----------------------------

  ghost predicate SeesSame(p: Plan, s: State, s': State, d: TaskId)
    requires Fits(p, s) && Fits(p, s') && d in p.deps
  {
    && (Inactive(p, s, d) <==> Inactive(p, s', d))
    && (BadParent(p, s, d) <==> BadParent(p, s', d))
    && (Skipped(p, s, d) <==> Skipped(p, s', d))
    && (s.status[d].Succeeded? <==> s'.status[d].Succeeded?)
    && (!Skipped(p, s, d) ==> s.status[d] == s'.status[d])
  }

  lemma SameSightSameAct(p: Plan, s: State, s': State, t: TaskId)
    requires Fits(p, s) && Fits(p, s') && t in p.deps
    requires forall d {:trigger SeesSame(p, s, s', d)} :: d in p.deps ==> SeesSame(p, s, s', d)
    ensures CanAct(p, s, t) <==> CanAct(p, s', t)
  {
    hide FateOf;
    forall d | d in p.deps[t] ensures SeesSame(p, s, s', d) {}
    assert SeesSame(p, s, s', t);
    assert FirstBad(p, s, p.deps[t]).Some? <==> FirstBad(p, s', p.deps[t]).Some?;
    assert Ready(p, s, t) <==> Ready(p, s', t);
  }

  lemma SameScan(p: Plan, s: State, s': State, i: nat)
    requires Fits(p, s) && Fits(p, s') && i <= |p.order|
    requires forall d {:trigger SeesSame(p, s, s', d)} :: d in p.deps ==> SeesSame(p, s, s', d)
    requires LatePending(s) ==> LatePending(s')
    requires ScannedTo(p, s, i)
    ensures ScannedTo(p, s', i)
  {
    forall j | 0 <= j < i && p.order[j] in p.deps && CanAct(p, s', p.order[j]) ensures LatePending(s') {
      SameSightSameAct(p, s, s', p.order[j]);
    }
  }

  lemma InOrder(p: Plan, s: State, i: nat)
    requires Fits(p, s) && i < |p.order|
    ensures p.order[i] in p.deps
  {
    assert p.order[i] in p.order;
  }

  /** A completed pass has looked at every task. */
  lemma ScannedAll(p: Plan, s: State, t: TaskId)
    requires Fits(p, s) && ScannedTo(p, s, |p.order|) && t in p.deps && CanAct(p, s, t)
    ensures LatePending(s)
  {
    assert t in p.order;
    var j :| 0 <= j < |p.order| && p.order[j] == t;
  }

  lemma SameFieldsSeeSame(p: Plan, s: State, s': State)
    requires Fits(p, s) && Fits(p, s')
    requires s'.status == s.status && s'.jobs == s.jobs && s'.errors == s.errors
    ensures forall d {:trigger SeesSame(p, s, s', d)} :: d in p.deps ==> SeesSame(p, s, s', d)
  {
    hide FateOf, Plan.Validated, Ranked;
    forall d | d in p.deps ensures SeesSame(p, s, s', d) {}
  }

  // ---- Workers and the main thread -----------------------------------------------

  /** Entering RUNNING is invisible to `schedule()`'s decisions. */
  lemma StartSeesSame(p: Plan, s: State, t: TaskId)
    requires Safe(p, s) && CanStep(p, s, Start(t))
    ensures forall d {:trigger SeesSame(p, s, Next(p, s, Start(t)), d)} ::
              d in p.deps ==> SeesSame(p, s, Next(p, s, Start(t)), d)
  {
    hide FateOf;
    var s' := Next(p, s, Start(t));
    assert TaskInv(p, s, t);
    forall d | d in p.deps ensures SeesSame(p, s, s', d) {}
  }

  /** A future that is not done has not had its callback run. */
  lemma UndoneIsOwed(p: Plan, s: State, t: TaskId)
    requires Safe(p, s) && t in s.jobs && !Done(s, t)
    ensures !s.jobs[t].hook.Entered? && Owed(s)
  {
    assert TaskInv(p, s, t);
  }

  /** What a pass has established survives whatever `schedule()` cannot see. */
  lemma SameTop(p: Plan, s: State, s': State)
    requires Fits(p, s) && Fits(p, s') && s.stack != [] && s'.stack == s.stack && TopInv(p, s)
    requires forall d {:trigger SeesSame(p, s, s', d)} :: d in p.deps ==> SeesSame(p, s, s', d)
    requires s'.late == s.late && s'.jobs.Keys == s.jobs.Keys
    requires forall x :: x in s.jobs ==> s'.jobs[x].hook == s.jobs[x].hook
    requires !AllFinished(p, s) ==> !AllFinished(p, s')
    ensures TopInv(p, s')
  {
    hide FateOf, Plan.Validated, Ranked, CanAct, Inactive, BadParent, AllFinished;
    assert Top(s') == Top(s);
    if LatePending(s) {
      var x :| x in s.late && x in s.jobs && !s.jobs[x].hook.Entered?;
      assert x in s'.late;
    }
    if Top(s).Scan? && !Top(s).changed { SameScan(p, s, s', Top(s).i); }
    if Top(s).Probe? { SameScan(p, s, s', |p.order|); }
  }

  lemma StartKeeps(p: Plan, s: State, t: TaskId)
    requires Inv(p, s) && CanStep(p, s, Start(t))
    ensures Inv(p, Next(p, s, Start(t)))
  {
    hide FateOf, Plan.Validated, Ranked, TaskInv, CanAct, Ready, Inactive, BadParent, TopInv, SeesSame, Claimed;
    var s' := Next(p, s, Start(t));
    WorkerStepSafe(p, s, Start(t));
    StartSeesSame(p, s, t);
    assert !Finished(s', t);
    UndoneIsOwed(p, s, t);
    assert t in s'.jobs && !s'.jobs[t].hook.Entered?;
    if s.stack != [] { SameTop(p, s, s'); }
  }

  lemma LateKeeps(p: Plan, s: State, s': State, t: TaskId)
    requires Inv(p, s) && Safe(p, s')
    requires s' == s.(status := s'.status, jobs := s'.jobs, late := Marked(s, t))
    requires s'.jobs.Keys == s.jobs.Keys && t in s'.jobs && !s'.jobs[t].hook.Entered?
    requires forall x :: x in s.jobs ==> s'.jobs[x].hook == s.jobs[x].hook
    ensures Inv(p, s')
  {
    hide FateOf, Plan.Validated, Ranked, TaskInv, CanAct, Ready, Inactive, BadParent;
    if s.stack != [] {
      assert t in s'.late && LatePending(s');
      assert Top(s') == Top(s);
    }
  }

  /** Settling and resolving may enable other tasks, but their own callback is still owed. */
  lemma CompletionKeeps(p: Plan, s: State, l: Step)
    requires Inv(p, s) && CanStep(p, s, l) && (l.Reject? || l.Settle? || l.Resolve?)
    ensures Inv(p, Next(p, s, l))
  {
    hide FateOf, Plan.Validated, Ranked, TaskInv, CanAct, Ready, Inactive, BadParent;
    WorkerStepSafe(p, s, l);
    UndoneIsOwed(p, s, l.tid);
    LateKeeps(p, s, Next(p, s, l), l.tid);
  }

  lemma CallbackKeeps(p: Plan, s: State, t: TaskId)
    requires Inv(p, s) && CanStep(p, s, Callback(t))
    ensures Inv(p, Next(p, s, Callback(t))) && Monotone(p, s, Next(p, s, Callback(t)))
  {
    hide FateOf, Plan.Validated, Ranked, TaskInv, CanAct, Ready, Inactive, BadParent;
    var s' := Next(p, s, Callback(t));
    OnFinishSafe(p, s, t);
    assert Top(s') == Scan(0, false);
    ControlStepSafe(p, OnFinish(s, t), s');
    MonotoneTrans(p, s, OnFinish(s, t), s');
  }

  lemma CloseKeeps(p: Plan, s: State)
    requires Inv(p, s) && CanStep(p, s, Close)
    ensures Inv(p, Next(p, s, Close)) && Monotone(p, s, Next(p, s, Close))
  {
    hide FateOf, Plan.Validated, Ranked, TaskInv, CanAct, Ready, Inactive, BadParent;
    var s' := Next(p, s, Close);
    ControlStepSafe(p, s, s');
    SameFieldsSeeSame(p, s, s');
    if s.stack != [] {
      assert Top(s') == Top(s);
      if LatePending(s) {
        var x :| x in s.late && x in s.jobs && !s.jobs[x].hook.Entered?;
        assert x in s'.late;
      }
      if Top(s).Scan? && !Top(s).changed { SameScan(p, s, s', Top(s).i); }
      if Top(s).Probe? { SameScan(p, s, s', |p.order|); }
    } else {
      forall t | t in p.deps && CanAct(p, s', t) ensures Owed(s') || s'.refused != {} {
        SameSightSameAct(p, s, s', t);
        if Owed(s) {
          var x :| x in s.jobs && !s.jobs[x].hook.Entered?;
          assert x in s'.jobs;
        }
      }
      if Owed(s) {
        var x :| x in s.jobs && !s.jobs[x].hook.Entered?;
        assert x in s'.jobs;
      }
    }
  }

  // ---- The lock holder -------------------------------------------------------------

  lemma PopFields(s: State)
    requires s.stack != []
    ensures var s' := Pop(s);
            && s'.stack == s.stack[..|s.stack| - 1] && (s'.kickoff ==> s.kickoff && s'.stack != [])
            && s'.status == s.status && s'.jobs == s.jobs && s'.errors == s.errors && s'.blame == s.blame
            && s'.closed == s.closed && s'.late == s.late && s'.log == s.log && s'.refused == s.refused
            && s'.done == s.done && s'.guard == s.guard
  {
    if |s.stack| > 1 {
      assert Pop(s) == s.(stack := s.stack[..|s.stack| - 1]);
    } else {
      assert s.stack[..|s.stack| - 1] == [];
      assert Pop(s) == s.(stack := [], kickoff := false);
    }
  }

  /** An activation ends: the caller below rescans, or the lock becomes free. */
  lemma PopKeeps(p: Plan, s: State, s': State)
    requires Inv(p, s) && s.stack != [] && !Top(s).Attach? && Fits(p, s')
    requires s'.stack == s.stack[..|s.stack| - 1] && (s'.kickoff ==> s.kickoff && s'.stack != [])
    requires s'.status == s.status && s'.jobs == s.jobs && s'.errors == s.errors && s'.blame == s.blame
    requires s'.closed == s.closed && s'.late == s.late && s'.log == s.log
    requires (s.done ==> s'.done) && (s'.guard ==> s'.done)
    requires RefusedInv(p, s')
    requires s'.done || Owed(s)
    requires s'.refused != {} || ScannedTo(p, s, |p.order|)
    ensures Inv(p, s') && Monotone(p, s, s')
  {
    hide FateOf, Plan.Validated, Ranked, TaskInv, CanAct, Ready;
    ControlStepSafe(p, s, s');
    if s'.stack != [] {
      assert Top(s') == s.stack[|s.stack| - 2];
    } else {
      SameFieldsSeeSame(p, s, s');
      if Owed(s) {
        var x :| x in s.jobs && !s.jobs[x].hook.Entered?;
        assert x in s'.jobs;
      }
      forall t | t in p.deps && CanAct(p, s', t) ensures Owed(s') || s'.refused != {} {
        if s'.refused == {} {
          SameSightSameAct(p, s, s', t);
          ScannedAll(p, s, t);
          var x :| x in s.late && x in s.jobs && !s.jobs[x].hook.Entered?;
          assert x in s'.jobs;
        }
      }
    }
  }

  /** The activation moves on with nothing changed but its position. */
  lemma MoveKeeps(p: Plan, s: State, f: Frame)
    requires Inv(p, s) && s.stack != [] && !Top(s).Attach? && !f.Attach?
    requires Fits(p, Retop(s, f)) && TopInv(p, Retop(s, f))
    ensures Inv(p, Retop(s, f)) && Monotone(p, s, Retop(s, f))
  {
    hide FateOf;
    var s' := Retop(s, f);
    ControlStepSafe(p, s, s');
    assert Top(s') == f;
  }

  lemma RetopScan(p: Plan, s: State, f: Frame, i: nat)
    requires Fits(p, s) && s.stack != [] && !f.Attach? && i <= |p.order| && ScannedTo(p, s, i)
    ensures Fits(p, Retop(s, f)) && ScannedTo(p, Retop(s, f), i)
    ensures LatePending(s) <==> LatePending(Retop(s, f))
  {
    hide FateOf;
    var s' := Retop(s, f);
    assert Top(s') == f;
    if LatePending(s) {
      var x :| x in s.late && x in s.jobs && !s.jobs[x].hook.Entered?;
      assert x in s'.late;
    }
    if LatePending(s') {
      var x :| x in s'.late && x in s'.jobs && !s'.jobs[x].hook.Entered?;
      assert x in s.late;
    }
    SameFieldsSeeSame(p, s, s');
    SameScan(p, s, s', i);
  }

  lemma PassOverKeeps(p: Plan, s: State, t: TaskId)
    requires Inv(p, s) && s.stack != [] && Top(s).Scan? && Top(s).i < |p.order|
    requires t == p.order[Top(s).i] && t in p.deps && !CanAct(p, s, t)
    ensures Inv(p, Advanced(p, s)) && Monotone(p, s, Advanced(p, s))
  {
    hide FateOf, Plan.Validated, Ranked, TaskInv, Ready, Inactive, BadParent;
    var Scan(i, changed) := Top(s);
    var f := Scan(i + 1, changed);
    assert Fits(p, Retop(s, f)) by { assert Top(Retop(s, f)) == f; }
    if !changed {
      assert ScannedTo(p, s, i + 1);
      RetopScan(p, s, f, i + 1);
    }
    assert Top(Retop(s, f)) == f;
    MoveKeeps(p, s, f);
  }

  lemma BlockKeeps(p: Plan, s: State, t: TaskId)
    requires Inv(p, s) && s.stack != [] && Top(s).Scan? && Top(s).i < |p.order|
    requires t == p.order[Top(s).i] && t in p.deps && Blocks(p, s, t)
    ensures Inv(p, Advanced(p, s)) && Monotone(p, s, Advanced(p, s))
  {
    hide FateOf, Plan.Validated, Ranked, TaskInv, CanAct, Ready, Inactive, BadParent;
    var s' := Advanced(p, s);
    assert Top(s') == Scan(Top(s).i + 1, true);
    BlockSafe(p, s, t, s');
  }

  lemma RefuseKeeps(p: Plan, s: State, t: TaskId)
    requires Inv(p, s) && s.stack != [] && Top(s).Scan? && Top(s).i < |p.order| && s.closed
    requires t == p.order[Top(s).i] && t in p.deps && Submits(p, s, t) && !Blocks(p, s, t)
    ensures Inv(p, Advanced(p, s)) && Monotone(p, s, Advanced(p, s))
  {
    hide FateOf, Plan.Validated, Ranked, CanAct, Inactive, BadParent, FirstBad, Pop;
    PopFields(s);
    var s' := Advanced(p, s);
    assert TaskInv(p, s, t);
    SubmittedIsFated(p, s, t);
    assert t in s'.refused;
    assert Fits(p, s') by { assert s'.stack != [] ==> Top(s') == s.stack[|s.stack| - 2]; }
    PopKeeps(p, s, s');
  }

  lemma SubmitKeeps(p: Plan, s: State, t: TaskId)
    requires Inv(p, s) && s.stack != [] && Top(s).Scan? && Top(s).i < |p.order| && !s.closed
    requires t == p.order[Top(s).i] && t in p.deps && Submits(p, s, t) && !Blocks(p, s, t)
    ensures Inv(p, Advanced(p, s)) && Monotone(p, s, Advanced(p, s))
  {
    hide FateOf, Plan.Validated, Ranked, TaskInv, CanAct, Ready, Inactive, BadParent;
    var s' := Advanced(p, s);
    assert Top(s') == Attach(Top(s).i, t);
    SubmitSafe(p, s, t, s');
    assert t !in s.log;
  }

  lemma MonotoneTrans(p: Plan, s: State, s1: State, s': State)
    requires Fits(p, s) && Fits(p, s1) && Fits(p, s') && Monotone(p, s, s1) && Monotone(p, s1, s')
    ensures Monotone(p, s, s')
  {
    forall d | d in p.deps ensures Persists(p, s, s', d) {
      assert Persists(p, s, s1, d) && Persists(p, s1, s', d);
    }
  }

  /** The callback is added to a future that is not done yet. */
  lemma RegisterKeeps(p: Plan, s: State)
    requires Inv(p, s) && s.stack != [] && Top(s).Attach? && !Done(s, Top(s).tid)
    ensures Inv(p, Advanced(p, s)) && Monotone(p, s, Advanced(p, s))
  {
    hide FateOf, Plan.Validated, Ranked, TaskInv, CanAct, Ready, Inactive, BadParent;
    var s' := Advanced(p, s);
    assert Top(s') == Scan(Top(s).i + 1, true);
    UndoneIsOwed(p, s, Top(s).tid);
    ControlStepSafe(p, s, s');
  }

  /** The future is already done: `on_finish` runs at once and re-enters `schedule()`. */
  lemma ReenterKeeps(p: Plan, s: State)
    requires Inv(p, s) && s.stack != [] && Top(s).Attach? && Done(s, Top(s).tid)
    ensures Inv(p, Advanced(p, s)) && Monotone(p, s, Advanced(p, s))
  {
    hide FateOf, Plan.Validated, Ranked, TaskInv, CanAct, Ready, Inactive, BadParent;
    var Attach(i, t) := Top(s);
    var s1 := Retop(s, Scan(i + 1, true));
    var s' := Advanced(p, s);
    assert Top(s1) == Scan(i + 1, true);
    ControlStepSafe(p, s, s1);
    OnFinishSafe(p, s1, t);
    MonotoneTrans(p, s, s1, s');
    assert Top(s') == Scan(0, false);
    assert s'.stack[|s'.stack| - 2] == Scan(i + 1, true);
  }

  lemma RestartKeeps(p: Plan, s: State)
    requires Inv(p, s) && s.stack != [] && Top(s).Scan? && Top(s).i == |p.order| && Top(s).changed
    ensures Inv(p, Advanced(p, s)) && Monotone(p, s, Advanced(p, s))
  {
    hide FateOf, Plan.Validated, Ranked, TaskInv, CanAct, Ready, Inactive, BadParent;
    assert Top(Advanced(p, s)) == Scan(0, false);
    MoveKeeps(p, s, Scan(0, false));
  }

  lemma JudgeKeeps(p: Plan, s: State)
    requires Inv(p, s) && s.stack != [] && Top(s) == Scan(|p.order|, false)
    ensures Inv(p, Advanced(p, s)) && Monotone(p, s, Advanced(p, s))
  {
    hide FateOf, Plan.Validated, Ranked, TaskInv, CanAct, Ready, Inactive, BadParent, Pop;
    PopFields(s);
    var s' := Advanced(p, s);
    if AllFinished(p, s) {
      assert Fits(p, s') by { assert |s.stack| > 1 ==> Top(s') == s.stack[|s.stack| - 2]; }
      PopKeeps(p, s, s');
    } else {
      RetopScan(p, s, Probe, |p.order|);
      assert Top(s') == Probe;
      var t :| t in p.deps && !Finished(s, t);
      assert !Finished(s', t);
      MoveKeeps(p, s, Probe);
    }
  }

  lemma ProbeKeeps(p: Plan, s: State)
    requires Inv(p, s) && s.stack != [] && Top(s).Probe?
    ensures Inv(p, Advanced(p, s)) && Monotone(p, s, Advanced(p, s))
  {
    hide FateOf, Plan.Validated, Ranked, TaskInv, CanAct, Ready, Inactive, BadParent, Pop;
    PopFields(s);
    var s' := Advanced(p, s);
    assert Fits(p, s') by { assert |s.stack| > 1 ==> Top(s') == s.stack[|s.stack| - 2]; }
    if Live(s) {
      var x :| x in s.jobs && !Done(s, x);
      UndoneIsOwed(p, s, x);
    }
    PopKeeps(p, s, s');
  }

  lemma AdvanceKeeps(p: Plan, s: State)
    requires Inv(p, s) && s.stack != []
    ensures Inv(p, Advanced(p, s)) && Monotone(p, s, Advanced(p, s))
  {
    match Top(s)
    case Attach(_, t) =>
      if Done(s, t) { ReenterKeeps(p, s); } else { RegisterKeeps(p, s); }
    case Probe => ProbeKeeps(p, s);
    case Scan(i, changed) =>
      if i == |p.order| {
        if changed { RestartKeeps(p, s); } else { JudgeKeeps(p, s); }
      } else {
        var t := p.order[i];
        assert t in p.order;
        if Blocks(p, s, t) {
          BlockKeeps(p, s, t);
        } else if !Submits(p, s, t) {
          PassOverKeeps(p, s, t);
        } else if s.closed {
          RefuseKeeps(p, s, t);
        } else {
          SubmitKeeps(p, s, t);
        }
      }
  }

  /** Every step of every thread keeps the invariant, and what is inactive stays so. */
  lemma StepKeeps(p: Plan, s: State, l: Step)
    requires Inv(p, s) && CanStep(p, s, l)
    ensures Inv(p, Next(p, s, l)) && Monotone(p, s, Next(p, s, l))
  {
    hide FateOf, Plan.Validated, Ranked, TaskInv, CanAct, Ready, Inactive, BadParent;
    match l
    case Start(t) => StartKeeps(p, s, t); WorkerStepSafe(p, s, l);
    case Callback(t) => CallbackKeeps(p, s, t);
    case Close => CloseKeeps(p, s);
    case Advance => AdvanceKeeps(p, s);
    case _ => CompletionKeeps(p, s, l); WorkerStepSafe(p, s, l);
  }

  lemma InitInv(p: Plan)
    requires p.Validated()
    ensures Inv(p, Init(p))
  {
    hide FateOf;
    var s := Init(p);
    assert Top(s) == Scan(0, false);
    forall t | t in p.deps ensures TaskInv(p, s, t) {}
  }

  lemma {:induction false} RunKeeps(p: Plan, s: State, ls: seq<Step>, s': State)
    requires Inv(p, s) && Follows(p, s, ls, s')
    ensures Inv(p, s')
    decreases |ls|
  {
    hide FateOf;
    if ls != [] {
      StepKeeps(p, s, ls[0]);
      RunKeeps(p, Next(p, s, ls[0]), ls[1..], s');
    }
  }

  lemma ReachableInv(p: Plan, s: State)
    requires Reachable(p, s)
    ensures Inv(p, s)
  {
    hide FateOf;
    var ls :| Follows(p, Init(p), ls, s);
    InitInv(p);
    RunKeeps(p, Init(p), ls, s);
  }

  lemma DependenciesKnown(p: Plan, s: State, t: TaskId)
    requires Fits(p, s) && t in s.jobs
    ensures t in p.deps && forall d :: d in p.deps[t] ==> d in s.status
  {
  }

  lemma FreeLock(p: Plan, s: State)
    requires Inv(p, s) && s.stack == []
    ensures !s.kickoff
  {
  }

  // ---- Activations --------------------------------------------------------------------

  /** An activation that will pass again, or the free lock, claims nothing. */
  ghost predicate Unclaimed(s: State) {
    s.stack != [] ==> Top(s).Attach? || (Top(s).Scan? && (Top(s).changed || Top(s).i == 0))
  }

  /** The activations below the current one have changes to report and will pass again. */
  lemma PoppedIsUnclaimed(p: Plan, s: State, s': State)
    requires Fits(p, s) && StackInv(p, s) && s.stack != [] && s'.stack == s.stack[..|s.stack| - 1]
    ensures Unclaimed(s')
  {
    if s'.stack != [] { assert Top(s') == s.stack[|s.stack| - 2]; }
  }

  lemma TopInRange(p: Plan, s: State)
    requires Fits(p, s) && StackInv(p, s) && s.stack != [] && Top(s).Scan?
    ensures Top(s).i <= |p.order|
  {
  }

  // ---- Composing runs ----------------------------------------------------------------

  lemma {:induction false} Extend(p: Plan, s: State, ls: seq<Step>, s': State, l: Step)
    requires Follows(p, s, ls, s') && CanStep(p, s', l)
    ensures Follows(p, s, ls + [l], Next(p, s', l))
    decreases |ls|
  {
    hide FateOf;
    if ls == [] {
      assert (ls + [l])[1..] == [];
    } else {
      assert (ls + [l])[1..] == ls[1..] + [l];
      Extend(p, Next(p, s, ls[0]), ls[1..], s', l);
    }
  }

  lemma {:induction false} Concat(p: Plan, s: State, ls: seq<Step>, s1: State, ls1: seq<Step>, s': State)
    requires Follows(p, s, ls, s1) && Follows(p, s1, ls1, s')
    ensures Follows(p, s, ls + ls1, s')
    decreases |ls|
  {
    hide FateOf;
    if ls == [] {
      assert ls + ls1 == ls1;
    } else {
      assert (ls + ls1)[1..] == ls[1..] + ls1;
      Concat(p, Next(p, s, ls[0]), ls[1..], s1, ls1, s');
    }
  }

  lemma ReachStep(p: Plan, s: State, l: Step)
    requires Reachable(p, s) && CanStep(p, s, l)
    ensures Reachable(p, Next(p, s, l))
  {
    hide FateOf;
    var ls :| Follows(p, Init(p), ls, s);
    Extend(p, Init(p), ls, s, l);
    ReachableInv(p, s);
    StepKeeps(p, s, l);
  }
}
