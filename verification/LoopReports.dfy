/** What `execute` with retries leaves, and what any history has announced. */
module LoopReports {
  import opened Lifecycle
  import opened Execution
  import opened Cancellation
  import opened Retries
  import opened Histories
  import opened Reports

  /** The last attempt the loop makes, from attempt `i` on. */
  function LastAttempt(n: nat, scripts: nat -> Script, i: nat): (k: nat)
    requires i < n
    ensures i <= k < n && !GoesOn(n, scripts, k) && forall j :: i <= j < k ==> GoesOn(n, scripts, j)
    decreases n - i
  {
    if GoesOn(n, scripts, i) then LastAttempt(n, scripts, i + 1) else i
  }

  /** A task after attempt `k` has failed. */
  function FailedSnap(id: TaskId, end: HandlerEnd): Snap
    requires end.Raises?
  {
    Snap(Failed, Some(end.failure.message), Some(FailureResult(id, end.failure)), None)
  }

  /** The task as attempt `k` finds it. */
  function Found(id: TaskId, entry: Snap, scripts: nat -> Script, i: nat, k: nat): Snap
    requires i <= k && forall j :: i <= j < k ==> scripts(j).end.Raises?
  {
    if k == i then entry else FailedSnap(id, scripts(k - 1).end)
  }

  /** What the failed attempts before attempt `k` have announced. */
  function Rounds(entry: Status, scripts: nat -> Script, i: nat, k: nat): seq<Note>
    requires i <= k && forall j :: i <= j < k ==> scripts(j).end.Raises?
    decreases k - i
  {
    if i == k then []
    else
      [Note(OnStarted, entry, None), Note(OnFailed, Running, Some(scripts(i).end.failure.message))]
      + Rounds(Failed, scripts, i + 1, k)
  }

  /** A cancel after the last attempt, which has failed, strikes the FAILED task. */
  predicate StruckAfter(n: nat, k: nat, script: Script) {
    && AttemptStatus(Present(script.end), script.at).Failed?
    && (AfterAttempt in script.at || BetweenChecks in script.at || (k + 1 < n && InBackoff in script.at))
  }

  /** How the loop ends whose last attempt is `k`: with what that attempt gave, or with
      `TaskCancelled` when the loop finds the task CANCELLED after an error. */
  function LoopOutcome(id: TaskId, n: nat, k: nat, script: Script, outcome: Outcome): Outcome {
    var s := AttemptStatus(Present(script.end), script.at);
    if outcome.Error?
        && (s.Cancelled? || AfterAttempt in script.at || (BetweenChecks !in script.at && StruckAfter(n, k, script)))
    then TaskCancelled(WasCancelled(id)) else outcome
  }

  function LoopReport(id: TaskId, entry: Snap, n: nat, scripts: nat -> Script, i: nat): Report
    requires i < n
  {
    var k := LastAttempt(n, scripts, i);
    GoingOnRaises(n, scripts, i, k);
    var r := AttemptReport(id, Found(id, entry, scripts, i, k), Present(scripts(k).end), scripts(k).at);
    var before := Rounds(entry.status, scripts, i, k);
    var outcome := LoopOutcome(id, n, k, scripts(k), r.outcome);
    if StruckAfter(n, k, scripts(k)) then Report(Struck(id, r.task), outcome, before + r.notes + Cry(r.task))
    else Report(r.task, outcome, before + r.notes)
  }

  lemma GoingOnRaises(n: nat, scripts: nat -> Script, i: nat, k: nat)
    requires forall j :: i <= j < k ==> GoesOn(n, scripts, j)
    ensures forall j :: i <= j < k ==> scripts(j).end.Raises?
  {
    forall j | i <= j < k ensures scripts(j).end.Raises? { assert GoesOn(n, scripts, j); }
  }

  lemma {:induction false} RetryFollows(w: World, n: nat, scripts: nat -> Script, i: nat)
    requires i < n && w.task.status.CanBecome(Running)
    ensures Follows(w, Retry(w, n, scripts, i), LoopReport(w.id, w.task, n, scripts, i))
    decreases n - i
  {
    hide Says, Attempt, Retry, WithCancel, AttemptStatus, AttemptReport, LoopReport, GoesOn;
    var h, at := Present(scripts(i).end), scripts(i).at;
    var e, a := Attempt(w, h, at), AttemptReport(w.id, w.task, h, at);
    AttemptFollows(w, h, at);
    AttemptKeepsContract(w, h, at);
    SaysKeepsId(w, e.world, a.notes);
    RepeatsIffGoesOn(w, n, scripts, i);
    if GoesOn(n, scripts, i) {
      RetryFollows(e.world, n, scripts, i + 1);
      RetryAgain(w, n, scripts, i);
      LoopAgain(w.id, w.task, n, scripts, i);
      SaysTwice(w, e.world, Retry(w, n, scripts, i).world, a.notes,
          LoopReport(w.id, e.world.task, n, scripts, i + 1).notes, LoopReport(w.id, w.task, n, scripts, i).notes);
    } else {
      LoopStops(w, n, scripts, i);
    }
  }

  lemma RetryAgain(w: World, n: nat, scripts: nat -> Script, i: nat)
    requires i < n && w.task.status.CanBecome(Running)
    requires Repeats(Attempt(w, Present(scripts(i).end), scripts(i).at), n, scripts(i).at, i)
    ensures Retry(w, n, scripts, i)
         == Retry(Attempt(w, Present(scripts(i).end), scripts(i).at).world, n, scripts, i + 1)
  {
    hide Attempt, WithCancel;
    RetryUnfolds(w, n, scripts, i);
  }

  /** An attempt after which the loop goes on. */
  lemma FailedRound(id: TaskId, entry: Snap, n: nat, scripts: nat -> Script, i: nat)
    requires GoesOn(n, scripts, i)
    ensures scripts(i).end.Raises?
    ensures var a := AttemptReport(id, entry, Present(scripts(i).end), scripts(i).at);
            && a.task == FailedSnap(id, scripts(i).end)
            && a.notes == [Note(OnStarted, entry.status, None),
                           Note(OnFailed, Running, Some(scripts(i).end.failure.message))]
  {
  }

  /** The report of the loop when attempt `i` is not the last. */
  lemma LoopAgain(id: TaskId, entry: Snap, n: nat, scripts: nat -> Script, i: nat)
    requires i < n && GoesOn(n, scripts, i)
    ensures i + 1 < n
    ensures var a := AttemptReport(id, entry, Present(scripts(i).end), scripts(i).at);
            var r, r' := LoopReport(id, entry, n, scripts, i), LoopReport(id, a.task, n, scripts, i + 1);
            r.task == r'.task && r.outcome == r'.outcome && a.notes + r'.notes == r.notes
  {
    hide AttemptReport, GoesOn, LoopOutcome, StruckAfter, Struck, Cry;
    GoesOnHasNext(n, scripts, i);
    FailedRound(id, entry, n, scripts, i);
    var k := LastAttempt(n, scripts, i);
    GoingOnRaises(n, scripts, i, k);
    var before := Rounds(Failed, scripts, i + 1, k);
    var a := AttemptReport(id, entry, Present(scripts(i).end), scripts(i).at);
    assert Rounds(entry.status, scripts, i, k) == a.notes + before;
    forall x: seq<Note>, y: seq<Note> ensures a.notes + (before + x) == a.notes + before + x
        && a.notes + (before + x + y) == a.notes + before + x + y {}
  }

  lemma GoesOnHasNext(n: nat, scripts: nat -> Script, i: nat)
    requires GoesOn(n, scripts, i)
    ensures i + 1 < n
  {
  }

  /** The report of the loop when attempt `i` is the last. */
  lemma LoopStops(w: World, n: nat, scripts: nat -> Script, i: nat)
    requires i < n && !GoesOn(n, scripts, i) && w.task.status.CanBecome(Running)
    ensures Follows(w, Retry(w, n, scripts, i), LoopReport(w.id, w.task, n, scripts, i))
  {
    hide Says, Attempt, WithCancel, AttemptStatus, AttemptReport, Struck, Cry;
    var h, at := Present(scripts(i).end), scripts(i).at;
    var e, a := Attempt(w, h, at), AttemptReport(w.id, w.task, h, at);
    AttemptFollows(w, h, at);
    AttemptKeepsContract(w, h, at);
    SaysKeepsId(w, e.world, a.notes);
    var r := LoopReport(w.id, w.task, n, scripts, i);
    assert [] + a.notes == a.notes;
    if e.outcome.Error? {
      CancelSays(e.world);
      SinkUnstruck(e.world, w.id);
      SaysTwice(w, e.world, WithCancel(e.world), a.notes, Cry(a.task), a.notes + Cry(a.task));
      assert [] + a.notes + Cry(a.task) == a.notes + Cry(a.task);
    }
  }

  /** A second cancel has no effect. */
  lemma SinkUnstruck(w: World, id: TaskId)
    requires w.id == id
    ensures WithCancel(WithCancel(w)) == WithCancel(w) && (w.task.status.Cancelled? ==> WithCancel(w) == w)
    ensures WithCancel(w).task.status == if w.task.status.IsSink() then w.task.status else Cancelled
  {
  }

  /** Every execution, with or without retries and with any cancels, ends as its report says. */
  lemma ExecuteFollows(w: World, typ: TaskType, handled: bool, n: nat, scripts: nat -> Script)
    requires n >= 1 && w.task.status.CanBecome(Running)
    ensures var h := if handled then Present(scripts(0).end) else Missing(typ);
            Follows(w, Execute(w, typ, handled, n, scripts),
                    if n == 1 || !handled then AttemptReport(w.id, w.task, h, scripts(0).at)
                    else LoopReport(w.id, w.task, n, scripts, 0))
  {
    hide Says, Attempt, Retry, AttemptReport, LoopReport;
    if n == 1 || !handled {
      AttemptFollows(w, if handled then Present(scripts(0).end) else Missing(typ), scripts(0).at);
    } else {
      RetryFollows(w, n, scripts, 0);
    }
  }

  // ---- Histories ----------------------------------------------------------------------------------

  /** The text of an error that attempt `i` of this operation raises. */
  predicate RaisedBy(op: Op, i: nat, error: Option<Message>) {
    op.DoExecute? && op.handled && i < op.attempts &&
    match op.scripts(i).end
    case Returns(_) => false
    case Raises(f) => error == Some(f.message)
    case Aborts(m) => error == Some(m)
  }

  /** Why an event carries this text: STARTED, SUCCEEDED and BLOCKED carry none; FAILED the
      handler's error or that there is no handler; CANCELLED that of the cancel, of the handler
      that it stopped, or of the return that it overtook. */
  ghost predicate Explained(n: Note, op: Op) {
    match n.kind
    case OnFailed =>
      || (op.DoExecute? && !op.handled && n.error == Some(NoHandler(op.typ)))
      || exists i: nat :: RaisedBy(op, i, n.error)
    case OnCancelled =>
      || n.error == Some(JustCancelled)
      || (op.DoExecute? && op.handled
          && (n.error == Some(WasCancelled(op.task)) || n.error == Some(CannotTransition(Cancelled, Succeeded))))
      || exists i: nat :: RaisedBy(op, i, n.error)
    case _ => n.error == None
  }

  ghost predicate AllExplained(ns: seq<Note>, op: Op) {
    forall k {:trigger ns[k]} :: 0 <= k < |ns| ==> Explained(ns[k], op)
  }

  lemma ExplainedTwice(a: seq<Note>, b: seq<Note>, op: Op)
    requires AllExplained(a, op) && AllExplained(b, op)
    ensures AllExplained(a + b, op)
  {
    hide Explained;
  }

  lemma CryExplained(s: Snap, op: Op)
    ensures AllExplained(Cry(s), op)
  {
  }

  lemma AttemptExplained(id: TaskId, entry: Snap, op: Op, i: nat)
    requires op.DoExecute? && op.handled && i < op.attempts && id == op.task
    ensures AllExplained(AttemptReport(id, entry, Present(op.scripts(i).end), op.scripts(i).at).notes, op)
  {
    var error := match op.scripts(i).end
      case Returns(_) => None
      case Raises(f) => Some(f.message)
      case Aborts(m) => Some(m);
    assert error.Some? ==> RaisedBy(op, i, error);
  }

  lemma MissingExplained(id: TaskId, entry: Snap, op: Op, at: set<Point>)
    requires op.DoExecute? && !op.handled
    ensures AllExplained(AttemptReport(id, entry, Missing(op.typ), at).notes, op)
  {
  }

  lemma {:induction false} RoundsExplained(entry: Status, op: Op, i: nat, k: nat)
    requires op.DoExecute? && op.handled && i <= k <= op.attempts
    requires forall j :: i <= j < k ==> op.scripts(j).end.Raises?
    ensures AllExplained(Rounds(entry, op.scripts, i, k), op)
    decreases k - i
  {
    if i < k {
      RoundsExplained(Failed, op, i + 1, k);
      var m := op.scripts(i).end.failure.message;
      assert RaisedBy(op, i, Some(m));
      ExplainedTwice([Note(OnStarted, entry, None), Note(OnFailed, Running, Some(m))],
                     Rounds(Failed, op.scripts, i + 1, k), op);
    }
  }

  lemma LoopExplained(id: TaskId, entry: Snap, op: Op)
    requires op.DoExecute? && op.handled && op.attempts >= 1 && id == op.task
    ensures AllExplained(LoopReport(id, entry, op.attempts, op.scripts, 0).notes, op)
  {
    hide AttemptReport, Rounds, Explained, AllExplained, Cry;
    var n := op.attempts;
    var k := LastAttempt(n, op.scripts, 0);
    GoingOnRaises(n, op.scripts, 0, k);
    var r := AttemptReport(id, Found(id, entry, op.scripts, 0, k), Present(op.scripts(k).end), op.scripts(k).at);
    RoundsExplained(entry.status, op, 0, k);
    AttemptExplained(id, Found(id, entry, op.scripts, 0, k), op, k);
    CryExplained(r.task, op);
    ExplainedTwice(Rounds(entry.status, op.scripts, 0, k), r.notes, op);
    ExplainedTwice(Rounds(entry.status, op.scripts, 0, k) + r.notes, Cry(r.task), op);
  }

  lemma BlockSays(w: World, parent: Option<TaskId>, at: set<Point>) returns (notes: seq<Note>)
    requires !w.task.status.Running?
    ensures Says(w, MarkedBlocked(w, parent, at), notes)
    ensures forall op :: AllExplained(notes, op)
  {
    hide Says, EmittedAt, WithCancel;
    CancelAtSays(w, at, AfterCheck);
    if AfterCheck in at || !w.task.status.Pending? {
      notes := CryAt(w.task, at, AfterCheck);
      assert !WithCancel(w).task.status.CanBecome(Blocked);
    } else {
      var w0 := w.(task := Transitioned(w.task, Blocked, None));
      SaysNothing(w, w0);
      CancelAtSays(w0, at, AfterTransition);
      var w1 := CancelAt(w0, at, AfterTransition);
      var w2 := w1.(task := w1.task.(blockedBy := parent));
      SaysNothing(w1, w2);
      CancelAtSays(w2, at, AfterBlame);
      var w3 := CancelAt(w2, at, AfterBlame);
      EmittedAtSays(w3, OnBlocked, Pending, None, at, AfterSave);
      var a, b := CryAt(w0.task, at, AfterTransition), CryAt(w2.task, at, AfterBlame);
      var c := CryAt(w3.task, at, AfterSave) + [Note(OnBlocked, Pending, None)];
      SaysTwice(w, w0, w1, [], a, a);
      SaysTwice(w, w1, w2, a, [], a);
      SaysTwice(w, w2, w3, a, b, a + b);
      notes := a + b + c;
      SaysTwice(w, w3, MarkedBlocked(w, parent, at), a + b, c, notes);
    }
  }

  lemma {:induction false} NotesPrefix(log: seq<Event>, n: nat, u: TaskId)
    requires n <= |log|
    ensures Notes(log[..n], u) <= Notes(log, u)
    decreases |log|
  {
    if n < |log| {
      NotesPrefix(log[..|log| - 1], n, u);
      assert log[..|log| - 1][..n] == log[..n];
    } else {
      assert log[..n] == log;
    }
  }

  /** An operation announces nothing about other tasks. */
  lemma OthersSilent(w: World, w': World, ms: seq<Mark>, u: TaskId)
    requires Extends(w, w', ms) && u != w.id
    ensures Notes(w'.bus.log, u) == Notes(w.bus.log, u)
  {
    NotesAreTrail(w.bus.log, u);
    NotesAreTrail(w'.bus.log, u);
    NotesPrefix(w'.bus.log, |w.bus.log|, u);
    assert w'.bus.log[..|w.bus.log|] == w.bus.log;
    assert Trail(w'.bus.log, u) == Trail(w.bus.log, u);
  }

  /** What an operation announces about its task is explained by it. */
  lemma OpSays(w: World, op: Op) returns (notes: seq<Note>)
    requires !w.task.status.Running? && (op.DoExecute? ==> op.attempts >= 1) && w.id == op.task
    ensures Says(w, Effect(w, op), notes) && AllExplained(notes, op)
  {
    hide Says, Attempt, Retry, WithCancel, MarkedBlocked, Execute, AttemptReport, LoopReport, AllExplained, Explained;
    match op {
      case DoCancel(_) =>
        notes := Cry(w.task);
        CancelSays(w);
        CryExplained(w.task, op);
      case DoBlock(_, parent, at) => notes := BlockSays(w, parent, at);
      case DoExecute(_, typ, handled, n, scripts) =>
        if w.task.status.IsSink() {
          SinkExecutes(w, op);
          notes := [];
          SaysNothing(w, w);
          NothingExplained(op);
        } else {
          ExecuteFollows(w, typ, handled, n, scripts);
          if n > 1 && handled {
            notes := LoopReport(w.id, w.task, n, scripts, 0).notes;
            LoopExplained(w.id, w.task, op);
          } else if handled {
            notes := AttemptReport(w.id, w.task, Present(scripts(0).end), scripts(0).at).notes;
            AttemptExplained(w.id, w.task, op, 0);
          } else {
            notes := AttemptReport(w.id, w.task, Missing(typ), scripts(0).at).notes;
            MissingExplained(w.id, w.task, op, scripts(0).at);
          }
        }
    }
  }

  lemma NothingExplained(op: Op)
    ensures AllExplained([], op)
  {
  }

  /** A note is explained by an operation on the task. */
  ghost predicate Accounted(n: Note, ops: seq<Op>, t: TaskId) {
    exists i {:trigger ops[i]} :: 0 <= i < |ops| && ops[i].task == t && Explained(n, ops[i])
  }

  ghost predicate AllAccounted(ns: seq<Note>, ops: seq<Op>, t: TaskId) {
    forall k {:trigger ns[k]} :: 0 <= k < |ns| ==> Accounted(ns[k], ops, t)
  }

  lemma {:induction false} RunSays(s: Sys, ops: seq<Op>, s': Sys, t: TaskId) returns (notes: seq<Note>)
    requires NoneRunning(s) && Leads(s, ops, s') && t in s.tasks
    ensures Notes(s'.bus.log, t) == Notes(s.bus.log, t) + notes && AllAccounted(notes, ops, t)
    decreases |ops|
  {
    hide Effect, Explained, NoneRunning, OpFlaw;
    if ops == [] {
      notes := [];
      assert Notes(s.bus.log, t) + [] == Notes(s.bus.log, t);
    } else {
      var w, s1 := WorldOf(s, ops[0].task), Apply(s, ops[0]);
      RestsBefore(s, ops[0]);
      var ms := OpMoves(w, ops[0]);
      MovesExtends(w, Effect(w, ops[0]), ms, OpFlaw(w.task.status, ops[0]));
      RestsAfter(s, ops[0]);
      var rest := RunSays(s1, ops[1..], s', t);
      var first := [];
      if ops[0].task == t {
        first := OpSays(w, ops[0]);
      } else {
        OthersSilent(w, Effect(w, ops[0]), ms, t);
      }
      notes := first + rest;
      assert Notes(s.bus.log, t) + first + rest == Notes(s.bus.log, t) + notes;
      AccountedNext(first, rest, ops, t);
    }
  }

  lemma RestsBefore(s: Sys, op: Op)
    requires NoneRunning(s) && op.task in s.tasks
    ensures !s.tasks[op.task].status.Running?
  {
  }

  lemma RestsAfter(s: Sys, op: Op)
    requires NoneRunning(s) && Applies(s, op) && !Effect(WorldOf(s, op.task), op).task.status.Running?
    ensures NoneRunning(Apply(s, op))
  {
    hide Effect;
  }

  lemma AccountedNext(first: seq<Note>, rest: seq<Note>, ops: seq<Op>, t: TaskId)
    requires ops != [] && AllAccounted(rest, ops[1..], t)
    requires if ops[0].task == t then AllExplained(first, ops[0]) else first == []
    ensures AllAccounted(first + rest, ops, t)
  {
    hide Explained;
    forall n | n in first || n in rest ensures Accounted(n, ops, t) {
      if n in first {
        var k :| 0 <= k < |first| && first[k] == n;
        assert Explained(n, ops[0]) && ops[0].task == t;
      } else {
        var k :| 0 <= k < |rest| && rest[k] == n;
        assert Accounted(n, ops[1..], t);
        var i :| 0 <= i < |ops[1..]| && ops[1..][i].task == t && Explained(n, ops[1..][i]);
        assert ops[i + 1] == ops[1..][i];
      }
    }
  }

  /** After any history and any cancels, every event of a task carries the text that an operation
      on this task accounts for. */
  lemma TextsAreAccounted(s: Sys, ops: seq<Op>, s': Sys, t: TaskId)
    requires Start(s) && Leads(s, ops, s') && t in s.tasks
    ensures AllAccounted(Notes(s'.bus.log, t), ops, t)
  {
    hide Leads, NoneRunning, AllAccounted;
    var notes := RunSays(s, ops, s', t);
    assert Notes(s.bus.log, t) == [] && [] + notes == notes;
  }
}
