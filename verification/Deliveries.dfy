/** What subscribers find in the store: an event is delivered after its task has been saved as it
    is then, unless a cancel comes between the save and the delivery of STARTED. */
module Deliveries {
  import opened Lifecycle
  import opened Execution
  import opened Cancellation
  import opened Retries
  import opened Histories

  /** Every lifecycle event of `t` since `b` found its task saved as it was at the delivery. */
  ghost predicate SavedSince(b: Bus, b': Bus, t: TaskId) {
    forall i {:trigger b'.log[i]} ::
      |b.log| <= i < |b'.log| && b'.log[i].kind.IsLifecycle() && b'.log[i].task == t ==>
        b'.log[i].stored == Some(b'.log[i].live)
  }

  lemma SavedTwice(b: Bus, b1: Bus, b2: Bus, t: TaskId)
    requires b.log <= b1.log <= b2.log
    ensures SavedSince(b, b2, t) <==> SavedSince(b, b1, t) && SavedSince(b1, b2, t)
  {
    assert forall i :: 0 <= i < |b1.log| ==> b1.log[i] == b2.log[i];
  }

  lemma {:induction false} TrailPrefix(log: seq<Event>, n: nat, u: TaskId)
    requires n <= |log|
    ensures Trail(log[..n], u) <= Trail(log, u)
    decreases |log|
  {
    if n < |log| {
      TrailPrefix(log[..|log| - 1], n, u);
      assert log[..|log| - 1][..n] == log[..n];
    } else {
      assert log[..n] == log;
    }
  }

  /** A delivered lifecycle event is one of those that the operation adds to its task's trail. */
  lemma EventIsMarked(w: World, w': World, ms: seq<Mark>, i: nat) returns (k: nat)
    requires Extends(w, w', ms) && |w.bus.log| <= i < |w'.bus.log| && w'.bus.log[i].kind.IsLifecycle()
    ensures w'.bus.log[i].task == w.id && k < |ms| && ms[k].kind == w'.bus.log[i].kind
  {
    hide Ledger, StoresOnlySaved, OnlyLoses, StoredCopy;
    var log, e := w'.bus.log, w'.bus.log[i];
    assert Delivered(w.bus, e);
    TrailAppend(log[..i], e, e.task);
    assert log[..i] + [e] == log[..i + 1];
    TrailPrefix(log, i + 1, e.task);
    TrailPrefix(log[..i], |w.bus.log|, e.task);
    assert log[..i][..|w.bus.log|] == w.bus.log;
    var before := |Trail(log[..i], e.task)|;
    assert Trail(log, e.task)[before] == Mark(e.kind, e.previous.value);
    assert e.task == w.id;
    k := before - |Trail(w.bus.log, w.id)|;
  }

  predicate NoStart(ms: seq<Mark>) {
    forall k :: 0 <= k < |ms| ==> !ms[k].kind.OnStarted?
  }

  /** Only STARTED can be delivered over an older copy. */
  lemma OthersAreSaved(w: World, w': World, ms: seq<Mark>, t: TaskId)
    requires Extends(w, w', ms) && Reliable(w.bus) && (NoStart(ms) || t != w.id)
    ensures SavedSince(w.bus, w'.bus, t)
  {
    forall i | |w.bus.log| <= i < |w'.bus.log| && w'.bus.log[i].kind.IsLifecycle() && w'.bus.log[i].task == t
      ensures w'.bus.log[i].stored == Some(w'.bus.log[i].live)
    {
      var k := EventIsMarked(w, w', ms, i);
      assert Delivered(w.bus, w'.bus.log[i]);
    }
  }

  lemma StaysReliable(w: World, w': World, ms: seq<Mark>)
    requires Extends(w, w', ms) && Reliable(w.bus)
    ensures Reliable(w'.bus) && w.bus.log <= w'.bus.log && w'.id == w.id
  {
  }

  // ---- Attempts ---------------------------------------------------------------------------

  /** A cancel lands inside the emission of STARTED, and none before. */
  predicate StaleStart(h: Handler, at: set<Point>) {
    h.Present? && BeforeEntry !in at && AfterEntry !in at && AfterStart !in at && AfterStartSave in at
  }

  lemma StartedSaves(w: World, at: set<Point>)
    requires w.task.status.CanBecome(Running) && Reliable(w.bus)
    ensures SavedSince(w.bus, Started(w, at).bus, w.id) <==> AfterStart in at || AfterStartSave !in at
  {
    var w' := Started(w, at);
    assert w'.bus.log[..|w.bus.log|] == w.bus.log && |w'.bus.log| == |w.bus.log| + 1;
    var e := w'.bus.log[|w.bus.log|];
    assert e.kind.IsLifecycle() && e.task == w.id;
  }

  lemma HandledSaves(w: World, end: HandlerEnd, at: set<Point>)
    requires w.task.status.CanBecome(Running) && Reliable(w.bus)
    ensures SavedSince(w.bus, Handled(w, end, at).world.bus, w.id) <==> AfterStart in at || AfterStartSave !in at
  {
    hide Extends, Started, Raised, Aborted, Returned, SavedSince, InSync, Reliable;
    StartedEffect(w, at);
    var w1, w' := Started(w, at), Handled(w, end, at).world;
    var rest;
    match end {
      case Returns(raw) => rest := ReturnedEffect(w1, raw, at);
      case Raises(f) => rest := RaisedEffect(w1, f, at);
      case Aborts(m) => rest := AbortedEffect(w1, m, at);
    }
    StaysReliable(w, w1, [Mark(OnStarted, w.task.status)]);
    StaysReliable(w1, w', rest);
    StartedSaves(w, at);
    OthersAreSaved(w1, w', rest, w.id);
    SavedTwice(w.bus, w1.bus, w'.bus, w.id);
  }

  lemma AttemptSaves(w: World, h: Handler, at: set<Point>)
    requires w.task.status.CanBecome(Running) && Reliable(w.bus)
    ensures SavedSince(w.bus, Attempt(w, h, at).world.bus, w.id) <==> !StaleStart(h, at)
  {
    hide Extends, Handled, Unhandled, Attempt, SavedSince, InSync, Outdated, AttemptFlaw, AttemptStatus, Reliable;
    if BeforeEntry in at || AfterEntry in at {
      Prevented(w, h, at);
      OthersAreSaved(w, Attempt(w, h, at).world, [Mark(OnCancelled, w.task.status)], w.id);
    } else {
      AttemptUnfolds(w, h, at);
      if h.Present? { HandledSaves(w, h.end, at); } else { UnhandledSaves(w, h.typ, at); }
    }
  }

  /** Without a handler there is no STARTED. */
  lemma UnhandledSaves(w: World, typ: TaskType, at: set<Point>)
    requires w.task.status.CanBecome(Running) && Reliable(w.bus)
    ensures SavedSince(w.bus, Unhandled(w, typ, at).world.bus, w.id)
  {
    hide Extends, Terminalized, SavedSince, InSync, Outdated, Reliable;
    var m, s := NoHandler(typ), w.task.status;
    var w1 := if s.Pending? then w else w.(task := Transitioned(w.task, Running, None));
    var r := FailureResult(w.id, Plain(m));
    if s.Pending? {
      TerminalizedFromPending(w, r, Some(m), at);
    } else {
      TerminalizedFromRunning(w1, r, s, OnFailed, Some(m), at);
    }
    var t := Terminalized(w1, r, s, OnFailed, Some(m), at);
    var first := if s.Pending? then [Mark(OnCancelled, Pending)] else [];
    OthersAreSaved(w1, t.world, if t.Refused? then first
        else if HitLast(at) then [Mark(OnCancelled, Failed), Mark(OnFailed, s)] else [Mark(OnFailed, s)], w.id);
  }

  // ---- Executions and histories --------------------------------------------------------------

  predicate StaleRetry(n: nat, scripts: nat -> Script, i: nat)
    requires i < n
    decreases n - i
  {
    || StaleStart(Present(scripts(i).end), scripts(i).at)
    || (GoesOn(n, scripts, i) && StaleRetry(n, scripts, i + 1))
  }

  lemma {:induction false} RetrySaves(w: World, n: nat, scripts: nat -> Script, i: nat)
    requires i < n && w.task.status.CanBecome(Running) && Reliable(w.bus)
    ensures SavedSince(w.bus, Retry(w, n, scripts, i).world.bus, w.id) <==> !StaleRetry(n, scripts, i)
    decreases n - i
  {
    hide Attempt, Retry, WithCancel, Extends, SavedSince, InSync, Outdated, AttemptFlaw, AttemptStatus, GoesOn,
        Reliable, StaleStart;
    var h, at := Present(scripts(i).end), scripts(i).at;
    var e, r := Attempt(w, h, at), Retry(w, n, scripts, i);
    var first := AttemptEffect(w, h, at);
    StaysReliable(w, e.world, first);
    AttemptSaves(w, h, at);
    RepeatsIffGoesOn(w, n, scripts, i);
    RetryUnfolds(w, n, scripts, i);
    CancelEffect(e.world);
    if Repeats(e, n, at, i) {
      RetrySaves(e.world, n, scripts, i + 1);
      var rest := RetryTrace(e.world, n, scripts, i + 1);
      StaysReliable(e.world, r.world, rest);
      SavedTwice(w.bus, e.world.bus, r.world.bus, w.id);
    } else if r.world != e.world {
      OthersAreSaved(e.world, r.world, [Mark(OnCancelled, Failed)], w.id);
      StaysReliable(e.world, r.world, [Mark(OnCancelled, Failed)]);
      SavedTwice(w.bus, e.world.bus, r.world.bus, w.id);
    }
  }

  predicate StaleOp(entry: Status, op: Op)
    requires op.DoExecute? ==> op.attempts >= 1
  {
    op.DoExecute? && !entry.IsSink() &&
    if op.attempts == 1 || !op.handled then
      StaleStart(if op.handled then Present(op.scripts(0).end) else Missing(op.typ), op.scripts(0).at)
    else StaleRetry(op.attempts, op.scripts, 0)
  }

  /** Some attempt on `t` in this history has had such a cancel. */
  ghost predicate StaleHistory(s: Sys, ops: seq<Op>, t: TaskId)
    requires t in s.tasks
    decreases |ops|
  {
    ops != [] && Applies(s, ops[0]) &&
    ((ops[0].task == t && StaleOp(s.tasks[t].status, ops[0])) || StaleHistory(Apply(s, ops[0]), ops[1..], t))
  }

  lemma OpSaves(w: World, op: Op, t: TaskId)
    requires !w.task.status.Running? && (op.DoExecute? ==> op.attempts >= 1) && Reliable(w.bus)
    ensures SavedSince(w.bus, Effect(w, op).bus, t) <==> !(t == w.id && StaleOp(w.task.status, op))
  {
    hide Extends, SavedSince, Attempt, Retry, WithCancel, MarkedBlocked, Reliable, OpFlaw, Moves,
        StaleStart, StaleRetry;
    if t != w.id {
      var ms := OpMoves(w, op);
      MovesExtends(w, Effect(w, op), ms, OpFlaw(w.task.status, op));
      OthersAreSaved(w, Effect(w, op), ms, t);
    } else if w.task.status.IsSink() && !op.DoBlock? {
      if op.DoExecute? { SinkExecutes(w, op); } else { CancelEffect(w); }
      SavedNothing(w.bus, t);
    } else {
      match op {
        case DoCancel(_) => CancelSaves(w);
        case DoBlock(_, parent, at) => BlockSaves(w, parent, at);
        case DoExecute(_, typ, handled, n, scripts) =>
          if n == 1 || !handled {
            AttemptSaves(w, if handled then Present(scripts(0).end) else Missing(typ), scripts(0).at);
          } else {
            RetrySaves(w, n, scripts, 0);
          }
      }
    }
  }

  lemma SavedNothing(b: Bus, t: TaskId)
    ensures SavedSince(b, b, t)
  {
  }

  lemma CancelSaves(w: World)
    requires Reliable(w.bus) && !w.task.status.Running?
    ensures SavedSince(w.bus, WithCancel(w).bus, w.id)
  {
    hide Extends, SavedSince, WithCancel, Reliable;
    CancelEffect(w);
    if w.task.status.IsSink() {
      SavedNothing(w.bus, w.id);
    } else {
      OthersAreSaved(w, WithCancel(w), [Mark(OnCancelled, w.task.status)], w.id);
    }
  }

  lemma BlockSaves(w: World, parent: Option<TaskId>, at: set<Point>)
    requires Reliable(w.bus) && !w.task.status.Running?
    ensures SavedSince(w.bus, MarkedBlocked(w, parent, at).bus, w.id)
  {
    hide Extends, SavedSince, WithCancel, Reliable, MarkedBlocked;
    BlockEffect(w, parent, at);
    if AfterCheck in at || !w.task.status.Pending? {
      CancelSaves(w);
      SavedNothing(w.bus, w.id);
    } else {
      OthersAreSaved(w, MarkedBlocked(w, parent, at),
          if HitBlock(at) then [Mark(OnCancelled, Blocked), Mark(OnBlocked, Pending)] else [Mark(OnBlocked, Pending)],
          w.id);
    }
  }

  lemma {:induction false} RunSaves(s: Sys, ops: seq<Op>, s': Sys, t: TaskId)
    requires NoneRunning(s) && Leads(s, ops, s') && Reliable(s.bus) && t in s.tasks
    ensures SavedSince(s.bus, s'.bus, t) <==> !StaleHistory(s, ops, t)
    ensures Grows(s.bus, s'.bus)
    decreases |ops|
  {
    hide Effect, Grows, SavedSince, StaleOp, OpFlaw, Reliable;
    LogGrows(s, ops, s');
    if ops == [] {
      SavedNothing(s.bus, t);
    } else {
      var w, s1 := WorldOf(s, ops[0].task), Apply(s, ops[0]);
      OpSaves(w, ops[0], t);
      var ms := OpMoves(w, ops[0]);
      MovesExtends(w, Effect(w, ops[0]), ms, OpFlaw(w.task.status, ops[0]));
      StaysReliable(w, Effect(w, ops[0]), ms);
      RunSaves(s1, ops[1..], s', t);
      LogsGrow(s1.bus, s'.bus);
      SavedTwice(s.bus, s1.bus, s'.bus, t);
    }
  }

  lemma LogsGrow(b: Bus, b': Bus)
    requires Grows(b, b')
    ensures b.log <= b'.log
  {
  }

  /** With a reliable store, after any history: every lifecycle event of a task was delivered
      after the task had been saved as it was at that moment, if and only if no cancel has landed
      inside the emission of STARTED of one of its attempts. */
  lemma SavedBeforeDelivery(s: Sys, ops: seq<Op>, s': Sys, t: TaskId)
    requires Start(s) && Leads(s, ops, s') && Reliable(s.bus) && t in s.tasks
    ensures (forall i {:trigger s'.bus.log[i]} ::
               0 <= i < |s'.bus.log| && s'.bus.log[i].kind.IsLifecycle() && s'.bus.log[i].task == t ==>
                 s'.bus.log[i].stored == Some(s'.bus.log[i].live))
            <==> !StaleHistory(s, ops, t)
  {
    hide Leads, StaleHistory;
    RunSaves(s, ops, s', t);
  }

  /** Even then the event shows the live task, and the stored copy differs in its status only.
      The report of a failed save shows the live task, too, and what went wrong. */
  lemma DeliveredLive(s: Sys, ops: seq<Op>, s': Sys, i: nat)
    requires Start(s) && Leads(s, ops, s') && i < |s'.bus.log|
    ensures var e := s'.bus.log[i];
            && e.status == e.live.status
            && (e.kind.IsLifecycle() ==> e.previous.Some? && (Reliable(s.bus) ==> e.stored == Some(e.live) || Stale(e)))
            && (e.kind.OnPersistenceFailed? ==> e.previous.None? && e.error == Some(SaveFailed))
  {
    hide Leads, Trail;
    LogGrows(s, ops, s');
    assert Delivered(s.bus, s'.bus.log[i]);
  }
}
