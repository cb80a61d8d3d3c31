/** The retry loop of `execute`. */
module Retries {
  import opened Lifecycle
  import opened Execution
  import opened Cancellation

  /** The flaw of the loop from attempt `i`: that of the one attempt that has one, if it is
      reached.  A flawed attempt ends CANCELLED, so it is the last. */
  function RetryFlaw(n: nat, scripts: nat -> Script, i: nat): Flaw
    requires i < n
    decreases n - i
  {
    var h, at := Present(scripts(i).end), scripts(i).at;
    var flaw := AttemptFlaw(Pending, h, at);
    if flaw.Clean? && GoesOn(n, scripts, i) then RetryFlaw(n, scripts, i + 1) else flaw
  }

  /** Attempt `i` fails, is not the last, and no cancel comes before the next. */
  predicate GoesOn(n: nat, scripts: nat -> Script, i: nat) {
    var at := scripts(i).at;
    && AttemptStatus(Present(scripts(i).end), at).Failed? && i + 1 < n
    && AfterAttempt !in at && BetweenChecks !in at && InBackoff !in at
  }

  /** The events up to and including a flawed attempt. */
  predicate FlawedTrail(entry: Status, ms: seq<Mark>, flaw: Flaw)
    decreases |ms|
  {
    || FlawedTail(entry, ms, flaw)
    || (|ms| >= 2 && ms[..2] == [Mark(OnStarted, entry), Mark(OnFailed, Running)] && FlawedTrail(Failed, ms[2..], flaw))
  }

  /** The loop makes another attempt: this one left the task FAILED and no cancel came since. */
  predicate Repeats(e: Ended, n: nat, at: set<Point>, i: nat) {
    && e.outcome.Error? && e.world.task.status.Failed? && i + 1 < n
    && AfterAttempt !in at && BetweenChecks !in at && InBackoff !in at
  }

  /** The lifecycle events of `execute` with `n` attempts left, from status `entry` to `s`:
      fewer than `n` times STARTED, FAILED; then a final attempt, or a cancellation that
      came between attempts or prevented one. */
  predicate RetryShape(entry: Status, ms: seq<Mark>, n: nat, s: Status)
    decreases n
  {
    || (ms == [Mark(OnCancelled, entry)] && s.Cancelled?)
    || (ms == [Mark(OnStarted, entry), Mark(TerminalKind(s), Running)] && s in {Succeeded, Failed, Cancelled}
        && (s.Failed? ==> n == 1))
    || (ms == [Mark(OnStarted, entry), Mark(OnFailed, Running), Mark(OnCancelled, Failed)] && s.Cancelled?)
    || (n > 1 && |ms| > 2 && ms[..2] == [Mark(OnStarted, entry), Mark(OnFailed, Running)]
        && RetryShape(Failed, ms[2..], n - 1, s))
  }

  /** What a finished `execute` guarantees, sound cancels or not. */
  predicate Outcomes(e: Ended) {
    && e.world.task.status in {Succeeded, Failed, Cancelled}
    && (e.outcome.Value? <==> e.world.task.status.Succeeded?)
  }

  /** What one round of the loop leads to. */
  lemma RetryUnfolds(w: World, n: nat, scripts: nat -> Script, i: nat)
    requires i < n && w.task.status.CanBecome(Running)
    ensures var at := scripts(i).at;
            var e, r := Attempt(w, Present(scripts(i).end), at), Retry(w, n, scripts, i);
            if Repeats(e, n, at, i) then r == Retry(e.world, n, scripts, i + 1)
            else if e.outcome.Error? && e.world.task.status.Failed?
                && (AfterAttempt in at || BetweenChecks in at || i + 1 < n) then
              r.world == WithCancel(e.world) && (r.outcome.TaskCancelled? || r.outcome == e.outcome)
            else r.world == e.world && (r.outcome == e.outcome || (r.outcome.TaskCancelled? && !e.outcome.Value?))
  {
    hide Attempt, WithCancel;
    var e := Attempt(w, Present(scripts(i).end), scripts(i).at);
    AttemptKeepsContract(w, Present(scripts(i).end), scripts(i).at);
    CancelEffect(e.world);
    CancelEffect(WithCancel(e.world));
  }

  /** For every script: `execute` ends in a final status and returns exactly when it is SUCCEEDED. */
  lemma {:induction false} RetryKeepsContract(w: World, n: nat, scripts: nat -> Script, i: nat)
    requires i < n && w.task.status.CanBecome(Running)
    ensures Outcomes(Retry(w, n, scripts, i))
    decreases n - i
  {
    hide Attempt, Retry, WithCancel;
    var e := Attempt(w, Present(scripts(i).end), scripts(i).at);
    AttemptKeepsContract(w, Present(scripts(i).end), scripts(i).at);
    RetryUnfolds(w, n, scripts, i);
    CancelEffect(e.world);
    if Repeats(e, n, scripts(i).at, i) { RetryKeepsContract(e.world, n, scripts, i + 1); }
  }

  /** The end of a loop that starts in `w` with `n` attempts left, by its flaw. */
  ghost predicate RetryEnds(w: World, r: Ended, ms: seq<Mark>, n: nat, flaw: Flaw) {
    var entry, s := w.task.status, r.world.task.status;
    && Extends(w, r.world, ms)
    && if flaw.Clean? then InSync(r.world) && RetryShape(entry, ms, n, s) && ResultOk(r.world.task)
       else
         && s.Cancelled? && FlawedTrail(entry, ms, flaw)
         && (ResultOk(r.world.task) <==> !flaw.SpoilsResult())
         && if !flaw.LeavesUnsaved() then InSync(r.world) else Outdated(r.world)
  }

  lemma RepeatsIffGoesOn(w: World, n: nat, scripts: nat -> Script, i: nat)
    requires i < n && w.task.status.CanBecome(Running)
    ensures Repeats(Attempt(w, Present(scripts(i).end), scripts(i).at), n, scripts(i).at, i) <==> GoesOn(n, scripts, i)
  {
    hide Attempt, AttemptStatus;
    AttemptKeepsContract(w, Present(scripts(i).end), scripts(i).at);
  }

  /** The trace of a retried execution, for every script: if no attempt is flawed, fewer than
      `n` times STARTED, FAILED and then one final attempt or a cancellation; otherwise, the
      same up to the flawed attempt. */
  lemma {:induction false} RetryTrace(w: World, n: nat, scripts: nat -> Script, i: nat) returns (ms: seq<Mark>)
    requires i < n && w.task.status.CanBecome(Running)
    ensures RetryEnds(w, Retry(w, n, scripts, i), ms, n - i, RetryFlaw(n, scripts, i))
    decreases n - i
  {
    hide Attempt, Retry, WithCancel, Extends, InSync, AttemptFlaw, AttemptStatus, Outdated, GoesOn;
    var h, at := Present(scripts(i).end), scripts(i).at;
    var e, r := Attempt(w, h, at), Retry(w, n, scripts, i);
    var first := AttemptEffect(w, h, at);
    RepeatsIffGoesOn(w, n, scripts, i);
    EntryDoesNotMatter(w.task.status, scripts(i).end, at);
    RetryUnfolds(w, n, scripts, i);
    CancelEffect(e.world);
    if Repeats(e, n, at, i) {
      var rest := RetryTrace(e.world, n, scripts, i + 1);
      ms := first + rest;
      ExtendsTwice(w, e.world, r.world, first, rest);
      assert ms[..2] == first && ms[2..] == rest;
    } else if r.world == e.world {
      ms := first;
    } else {
      ms := first + [Mark(OnCancelled, Failed)];
      assert ms == [Mark(OnStarted, w.task.status), Mark(OnFailed, Running), Mark(OnCancelled, Failed)];
      ExtendsTwice(w, e.world, r.world, first, [Mark(OnCancelled, Failed)]);
    }
  }

  lemma EntryDoesNotMatter(entry: Status, end: HandlerEnd, at: set<Point>)
    ensures AttemptFlaw(entry, Present(end), at) == AttemptFlaw(Pending, Present(end), at)
  {
  }

  // ---- What the outcome tells -------------------------------------------------------------

  /** A cancel falls between the two checks that follow an attempt the loop reaches and that
      has failed. */
  predicate Hides(n: nat, scripts: nat -> Script, i: nat)
    requires i < n
    decreases n - i
  {
    var at := scripts(i).at;
    && AttemptStatus(Present(scripts(i).end), at).Failed? && AfterAttempt !in at
    && (BetweenChecks in at || (i + 1 < n && InBackoff !in at && Hides(n, scripts, i + 1)))
  }

  lemma {:induction false} RetryTells(w: World, n: nat, scripts: nat -> Script, i: nat)
    requires i < n && w.task.status.CanBecome(Running)
    ensures Tells(Retry(w, n, scripts, i)) <==> !Hides(n, scripts, i)
    decreases n - i
  {
    hide Attempt, WithCancel, AttemptStatus;
    var e := Attempt(w, Present(scripts(i).end), scripts(i).at);
    AttemptKeepsContract(w, Present(scripts(i).end), scripts(i).at);
    CancelEffect(e.world);
    if Repeats(e, n, scripts(i).at, i) { RetryTells(e.world, n, scripts, i + 1); }
  }

  /** The executions whose outcome tells the status: a return SUCCEEDED, `TaskCancelled`
      CANCELLED, any other error FAILED. */
  predicate ExecuteTells(entry: Status, typ: TaskType, handled: bool, n: nat, scripts: nat -> Script)
    requires n >= 1
  {
    if entry.IsSink() then entry.Cancelled? && handled && n > 1
    else if n == 1 || !handled then
      AttemptTells(if handled then Present(scripts(0).end) else Missing(typ), scripts(0).at)
    else !Hides(n, scripts, 0)
  }

  /** The outcome of `execute` tells the status if and only if: for one attempt, no cancel
      prevents it or makes it flawed (or CANCELLED without a handler); for several, none falls
      between the loop's checks. */
  lemma OutcomeTellsStatus(w: World, typ: TaskType, handled: bool, n: nat, scripts: nat -> Script)
    requires n >= 1 && !w.task.status.Running?
    ensures Tells(Execute(w, typ, handled, n, scripts)) <==> ExecuteTells(w.task.status, typ, handled, n, scripts)
  {
    hide Attempt, Retry, AttemptTells, Hides;
    var h, at := if handled then Present(scripts(0).end) else Missing(typ), scripts(0).at;
    if w.task.status.IsSink() {
      SinkOutcome(w, typ, handled, n, scripts);
    } else if n == 1 || !handled {
      var _ := AttemptEffect(w, h, at);
    } else {
      RetryTells(w, n, scripts, 0);
    }
  }

  lemma SinkOutcome(w: World, typ: TaskType, handled: bool, n: nat, scripts: nat -> Script)
    requires n >= 1 && w.task.status.IsSink()
    ensures var e := Execute(w, typ, handled, n, scripts);
            && e.world == w && !e.outcome.Value?
            && (e.outcome.TaskCancelled? <==> w.task.status.Cancelled? && handled && n > 1)
  {
  }

  /** A cancel between the checks: the handler's error is raised although the task is CANCELLED. */
  lemma CancelBetweenChecksHidesItself(w: World, typ: TaskType, n: nat, f: Failure, scripts: nat -> Script)
    requires n > 1 && w.task.status.CanBecome(Running) && scripts(0) == Script(Raises(f), {BetweenChecks})
    ensures var r := Execute(w, typ, true, n, scripts); r.world.task.status.Cancelled? && r.outcome == Error(f)
  {
    hide Attempt, WithCancel;
    UndisturbedAttempt(w, Raises(f), {BetweenChecks});
    CancelEffect(Attempt(w, Present(Raises(f)), {BetweenChecks}).world);
  }

  // ---- Undisturbed executions ----------------------------------------------------------

  function ResultOf(id: TaskId, end: HandlerEnd): Result {
    match end
    case Returns(raw) => FromRaw(id, raw)
    case Raises(f) => FailureResult(id, f)
    case Aborts(m) => CancelledResult(id, m)
  }

  function OutcomeOf(id: TaskId, end: HandlerEnd): Outcome {
    match end
    case Returns(raw) => Value(FromRaw(id, raw))
    case Raises(f) => Error(f)
    case Aborts(m) => TaskCancelled(m)
  }

  predicate Undisturbed(at: set<Point>) {
    BeforeEntry !in at && AfterEntry !in at && !Early(at) && !Late(at)
  }

  /** No cancel arrives: the attempt records exactly what the handler did. */
  lemma UndisturbedAttempt(w: World, end: HandlerEnd, at: set<Point>)
    requires w.task.status.CanBecome(Running) && Undisturbed(at)
    ensures var e := Attempt(w, Present(end), at);
            && e.outcome == OutcomeOf(w.id, end) && e.world.id == w.id
            && e.world.task == Snap(Verdict(end), if end.Returns? then None else Some(ErrorText(end)),
                Some(ResultOf(w.id, end)), None)
  {
    hide Emitted;
    AttemptUnfolds(w, Present(end), at);
    EmittedKeepsTask(w.(task := Transitioned(w.task, Running, None)), OnStarted, w.task.status, None);
    var w1, r := Started(w, at), ResultOf(w.id, end);
    match end {
      case Returns(raw) => UndisturbedWrite(w1, r, OnSucceeded, None, at);
      case Raises(f) => UndisturbedWrite(w1, r, OnFailed, Some(f.message), at);
      case Aborts(m) => UndisturbedWrite(w1, r, OnCancelled, Some(m), at);
    }
  }

  lemma UndisturbedWrite(w: World, r: Result, kind: Kind, error: Option<Message>, at: set<Point>)
    requires w.task.status.Running? && !Late(at) && r.status in {Succeeded, Failed, Cancelled}
    ensures var t := Terminalized(w, r, Running, kind, error, at);
            t.Done? && t.world.id == w.id && t.world.task == Transitioned(w.task.(result := Some(r)), r.status, error)
  {
    hide Emitted;
    EmittedKeepsTask(w.(task := Transitioned(w.task.(result := Some(r)), r.status, error)), kind, Running, error);
  }

  function ErrorText(end: HandlerEnd): Message
    requires !end.Returns?
  {
    if end.Raises? then end.failure.message else end.message
  }

  /** The attempt that decides: the first whose handler does not raise, or the last one. */
  function Deciding(n: nat, scripts: nat -> Script, i: nat): (k: nat)
    requires i < n
    ensures i <= k < n && (k == n - 1 || !scripts(k).end.Raises?)
    ensures forall j :: i <= j < k ==> scripts(j).end.Raises?
    decreases n - i
  {
    if i + 1 == n || !scripts(i).end.Raises? then i else Deciding(n, scripts, i + 1)
  }

  /** Undisturbed, `execute` gives what the deciding attempt gives; when every attempt fails,
      that is the last error, with the last attempt's result attached. */
  lemma {:induction false} DecidingAttemptWins(w: World, n: nat, scripts: nat -> Script, i: nat)
    requires i < n && w.task.status.CanBecome(Running) && forall j :: i <= j < n ==> scripts(j).at == {}
    ensures var r, end := Retry(w, n, scripts, i), scripts(Deciding(n, scripts, i)).end;
            && r.outcome == OutcomeOf(w.id, end) && r.world.task.status == Verdict(end)
            && r.world.task.result == Some(ResultOf(w.id, end))
    decreases n - i
  {
    hide Attempt;
    UndisturbedAttempt(w, scripts(i).end, {});
    if i + 1 < n && scripts(i).end.Raises? {
      DecidingAttemptWins(Attempt(w, Present(scripts(i).end), {}).world, n, scripts, i + 1);
    }
  }
}
