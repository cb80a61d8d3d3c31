/** What an execution leaves, in every field: the task, the events with their texts, and the
    outcome, told from the handler's end and the cancels without following the steps. */
module Reports {
  import opened Lifecycle
  import opened Execution
  import opened Cancellation

  /** A lifecycle event of a task: its kind, previous status and error text. */
  datatype Note = Note(kind: Kind, previous: Status, error: Option<Message>)

  function Notes(log: seq<Event>, id: TaskId): seq<Note> {
    if log == [] then []
    else
      var rest, e := Notes(log[..|log| - 1], id), log[|log| - 1];
      if e.task == id && e.kind.IsLifecycle() && e.previous.Some? then rest + [Note(e.kind, e.previous.value, e.error)]
      else rest
  }

  function MarkOf(n: Note): Mark {
    Mark(n.kind, n.previous)
  }

  /** The trail is what the notes say without their texts. */
  lemma {:induction false} NotesAreTrail(log: seq<Event>, id: TaskId)
    ensures |Notes(log, id)| == |Trail(log, id)|
    ensures forall i :: 0 <= i < |Notes(log, id)| ==> MarkOf(Notes(log, id)[i]) == Trail(log, id)[i]
  {
    if log != [] { NotesAreTrail(log[..|log| - 1], id); }
  }

  // ---- Results, field by field -----------------------------------------------------------------

  /** What a result says of a return: standard output or the string as output, standard error as
      the error if there is any, the return code of a process, and no reason. */
  predicate RecordsReturn(r: Result, id: TaskId, raw: Raw) {
    && r.task == id && r.status.Succeeded? && r.reason.None?
    && match raw
       case Completed(stdout, stderr, code) =>
         && r.output == stdout && r.returncode == Some(code)
         && (r.error.None? <==> stderr == "") && (r.error.Some? ==> r.error.value == Text(stderr))
       case Output(text) => r.output == text && r.error.None? && r.returncode.None?
       case Opaque => r.output == "" && r.error.None? && r.returncode.None?
  }

  /** What it says of a failure: the reason tells an exit code, a timeout and any other error
      apart, and a failed process is described by its standard error if there is any. */
  predicate RecordsFailure(r: Result, id: TaskId, f: Failure) {
    && r.task == id && r.status.Failed? && r.error.Some?
    && match f
       case Plain(m) => r.output == "" && r.error.value == m && r.returncode.None? && r.reason == Some(HandlerError)
       case Execution(m, stdout, stderr, code) =>
         && r.output == stdout && r.returncode == Some(code) && r.reason == Some(ExitCode)
         && (stderr != "" ==> r.error.value == Text(stderr)) && (stderr == "" ==> r.error.value == m)
       case Timeout(m, stdout, code) =>
         r.output == stdout && r.returncode == Some(code) && r.reason == Some(TimedOut) && r.error.value == m
  }

  predicate RecordsCancellation(r: Result, id: TaskId, m: Message) {
    r == Result(id, Cancelled, "", Some(m), None, Some(CancelSignal))
  }

  lemma ResultsRecord(id: TaskId, raw: Raw, f: Failure, m: Message)
    ensures RecordsReturn(FromRaw(id, raw), id, raw)
    ensures RecordsFailure(FailureResult(id, f), id, f)
    ensures RecordsCancellation(CancelledResult(id, m), id, m)
  {
  }

  // ---- What is delivered ----------------------------------------------------------------------------

  /** `w'` has delivered `notes` about its task since `w`. */
  ghost predicate Says(w: World, w': World, notes: seq<Note>) {
    w'.id == w.id && Notes(w'.bus.log, w.id) == Notes(w.bus.log, w.id) + notes
  }

  lemma SaysTwice(w: World, w1: World, w2: World, a: seq<Note>, b: seq<Note>, c: seq<Note>)
    requires Says(w, w1, a) && Says(w1, w2, b) && a + b == c
    ensures Says(w, w2, c)
  {
    assert (Notes(w.bus.log, w.id) + a) + b == Notes(w.bus.log, w.id) + (a + b);
  }

  lemma SaysNothing(w: World, w': World)
    requires w'.id == w.id && w'.bus == w.bus
    ensures Says(w, w', [])
  {
  }

  lemma NotesAppend(log: seq<Event>, e: Event, id: TaskId)
    ensures Notes(log + [e], id)
         == if e.task == id && e.kind.IsLifecycle() && e.previous.Some?
            then Notes(log, id) + [Note(e.kind, e.previous.value, e.error)]
            else Notes(log, id)
  {
    assert (log + [e])[..|log|] == log;
  }

  lemma PersistSays(w: World)
    ensures Says(w, Persisted(w), []) && Persisted(w).task == w.task
  {
    var b, b' := w.bus, Persisted(w).bus;
    if b'.log != b.log {
      assert b'.log == b.log + [b'.log[|b.log|]];
      NotesAppend(b.log, b'.log[|b.log|], w.id);
    }
  }

  lemma DeliverSays(w: World, kind: Kind, previous: Status, error: Option<Message>)
    requires kind.IsLifecycle()
    ensures Says(w, Deliver(w, kind, previous, error), [Note(kind, previous, error)])
    ensures Deliver(w, kind, previous, error).task == w.task
  {
    var b, b' := w.bus, Deliver(w, kind, previous, error).bus;
    assert b'.log == b.log + [b'.log[|b.log|]];
    NotesAppend(b.log, b'.log[|b.log|], w.id);
  }

  /** A task that an external cancel has struck. */
  function Struck(id: TaskId, s: Snap): Snap {
    if s.status.IsSink() then s
    else if s.status.Running? then s.(status := Cancelled)
    else s.(status := Cancelled, result := Some(CancelledResult(id, JustCancelled)))
  }

  /** What the cancel itself announces. */
  function Cry(s: Snap): seq<Note> {
    if s.status.IsSink() || s.status.Running? then [] else [Note(OnCancelled, s.status, Some(JustCancelled))]
  }

  lemma CancelSays(w: World)
    ensures WithCancel(w).task == Struck(w.id, w.task) && Says(w, WithCancel(w), Cry(w.task))
  {
    hide Says, Persisted, Deliver;
    var s := w.task.status;
    if s.IsSink() || s.Running? {
      SaysNothing(w, WithCancel(w));
    } else {
      var w1 := Attach(w.(task := w.task.(status := Cancelled)), CancelledResult(w.id, JustCancelled));
      PersistSays(w1);
      DeliverSays(Persisted(w1), OnCancelled, s, Some(JustCancelled));
      SaysNothing(w, w1);
      SaysTwice(w, w1, Persisted(w1), [], [], []);
      SaysTwice(w, Persisted(w1), WithCancel(w), [], Cry(w.task), Cry(w.task));
    }
  }

  /** A task after a cancel that may land at `p`, and what is announced. */
  function StruckAt(id: TaskId, s: Snap, at: set<Point>, p: Point): Snap {
    if p in at then Struck(id, s) else s
  }

  function CryAt(s: Snap, at: set<Point>, p: Point): seq<Note> {
    if p in at then Cry(s) else []
  }

  lemma CancelAtSays(w: World, at: set<Point>, p: Point)
    ensures CancelAt(w, at, p).task == StruckAt(w.id, w.task, at, p)
    ensures Says(w, CancelAt(w, at, p), CryAt(w.task, at, p))
  {
    hide Says, WithCancel;
    if p in at { CancelSays(w); } else { SaysNothing(w, w); }
  }

  lemma EmittedAtSays(w: World, kind: Kind, previous: Status, error: Option<Message>, at: set<Point>, p: Point)
    requires kind.IsLifecycle()
    ensures var w' := EmittedAt(w, kind, previous, error, at, p);
            w'.task == StruckAt(w.id, w.task, at, p)
            && Says(w, w', CryAt(w.task, at, p) + [Note(kind, previous, error)])
  {
    hide Says, Persisted, Deliver, CancelAt, StruckAt, CryAt;
    PersistSays(w);
    var w1 := Persisted(w);
    SaysKeepsId(w, w1, []);
    CancelAtSays(w1, at, p);
    var w2, cry := CancelAt(w1, at, p), CryAt(w.task, at, p);
    DeliverSays(w2, kind, previous, error);
    SaysTwice(w, w1, w2, [], cry, cry);
    SaysTwice(w, w2, EmittedAt(w, kind, previous, error, at, p), cry, [Note(kind, previous, error)],
        cry + [Note(kind, previous, error)]);
  }

  lemma SaysKeepsId(w: World, w': World, notes: seq<Note>)
    requires Says(w, w', notes)
    ensures w'.id == w.id
  {
  }

  // ---- Terminal writes ----------------------------------------------------------------------------------

  /** The last part of a terminal write: transition, emission. */
  lemma LastSays(w: World, w1: World, before: seq<Note>, kind: Kind, previous: Status, error: Option<Message>,
      at: set<Point>)
    requires Says(w, w1, before) && kind.IsLifecycle() && w1.task.status in {Succeeded, Failed, Cancelled}
    ensures var w', n := EmittedAt(CancelAt(w1, at, AfterTransition), kind, previous, error, at, AfterSave),
                Note(kind, previous, error);
            if w1.task.status.Failed? && HitLast(at) then
              && w'.task == Struck(w.id, w1.task)
              && Says(w, w', before + [Note(OnCancelled, Failed, Some(JustCancelled)), n])
            else w'.task == w1.task && Says(w, w', before + [n])
  {
    hide Says, EmittedAt, CancelAt, CancelledResult;
    SaysKeepsId(w, w1, before);
    CancelAtSays(w1, at, AfterTransition);
    var w2, n := CancelAt(w1, at, AfterTransition), Note(kind, previous, error);
    var a := CryAt(w1.task, at, AfterTransition);
    SaysKeepsId(w1, w2, a);
    EmittedAtSays(w2, kind, previous, error, at, AfterSave);
    var b := CryAt(w2.task, at, AfterSave);
    SaysTwice(w, w1, w2, before, a, before + a);
    SaysTwice(w, w2, EmittedAt(w2, kind, previous, error, at, AfterSave), before + a, b + [n],
        before + a + (b + [n]));
    var late := w1.task.status.Failed? && HitLast(at);
    assert a + (b + [n]) == if late then [Note(OnCancelled, Failed, Some(JustCancelled)), n] else [n];
    assert before + a + (b + [n]) == before + (a + (b + [n]));
  }

  /** A terminal write from RUNNING or, for a cancellation, from CANCELLED. */
  lemma TerminalSays(w: World, r: Result, previous: Status, kind: Kind, error: Option<Message>, at: set<Point>)
    requires kind.IsLifecycle() && r.status in {Succeeded, Failed, Cancelled}
    requires w.task.status.Running? || (w.task.status.Cancelled? && r.status.Cancelled?)
    ensures var t, n := Terminalized(w, r, previous, kind, error, at), Note(kind, previous, error);
            var marked := w.task.(status := Cancelled, result := Some(r));
            if (w.task.status.Cancelled? || HitEarly(at)) && r.status.Cancelled? then
              t.Done? && t.world.task == marked && Says(w, t.world, [n])
            else if HitEarly(at) || AfterCompare in at then
              t.Refused? && t.world.task == marked && Says(w, t.world, [])
            else
              var task := Transitioned(w.task.(result := Some(r)), r.status, error);
              && t.Done?
              && if r.status.Failed? && HitLast(at) then
                   && t.world.task == Struck(w.id, task)
                   && Says(w, t.world, [Note(OnCancelled, Failed, Some(JustCancelled)), n])
                 else t.world.task == task && Says(w, t.world, [n])
  {
    hide Says, EmittedAt, WithCancel, CancelledResult;
    var w0 := CancelAt(w, at, AfterCheck);
    CancelSays(w);
    CancelSays(Attach(w0, r));
    var w1 := CancelAt(Attach(w0, r), at, AfterAttach);
    CancelSays(w1);
    var w2 := CancelAt(w1, at, AfterCompare);
    SilentlyMarked(w, r, at);
    SaysNothing(w, w1);
    SaysNothing(w, w2);
    if w1.task.status == r.status {
      EmittedAtSays(w1, kind, previous, error, at, AfterSave);
      assert CryAt(w1.task, at, AfterSave) + [Note(kind, previous, error)] == [Note(kind, previous, error)];
      SaysTwice(w, w1, EmittedAt(w1, kind, previous, error, at, AfterSave), [], [Note(kind, previous, error)],
          [Note(kind, previous, error)]);
    } else if w2.task.status.CanBecome(r.status) {
      var w3 := w2.(task := Transitioned(w2.task, r.status, error));
      SaysNothing(w, w3);
      LastSays(w, w3, [], kind, previous, error, at);
      assert [] + [Note(kind, previous, error)] == [Note(kind, previous, error)];
      assert [] + [Note(OnCancelled, Failed, Some(JustCancelled)), Note(kind, previous, error)]
          == [Note(OnCancelled, Failed, Some(JustCancelled)), Note(kind, previous, error)];
    }
  }

  /** A cancel before the transition only marks the task. */
  lemma SilentlyMarked(w: World, r: Result, at: set<Point>)
    requires w.task.status in {Running, Cancelled}
    ensures var w1 := CancelAt(Attach(CancelAt(w, at, AfterCheck), r), at, AfterAttach);
            var w2 := CancelAt(w1, at, AfterCompare);
            w1.id == w.id && w1.bus == w.bus && w2.id == w.id && w2.bus == w.bus
  {
  }

  /** A terminal write of a PENDING task without handler. */
  lemma PendingSays(w: World, r: Result, error: Option<Message>, at: set<Point>)
    requires w.task.status.Pending? && r.status.Failed?
    ensures var t, n, cry :=
                Terminalized(w, r, Pending, OnFailed, error, at), Note(OnFailed, Pending, error), Cry(w.task);
            if HitEarly(at) || AfterCompare in at then
              && t.Refused? && Says(w, t.world, cry)
              && t.world.task == if AfterCheck in at then w.task.(status := Cancelled, result := Some(r))
                                 else Struck(w.id, w.task)
            else
              var task := w.task.(status := Failed, error := error, result := Some(r));
              && t.Done?
              && if HitLast(at) then
                   && t.world.task == Struck(w.id, task)
                   && Says(w, t.world, [Note(OnCancelled, Failed, Some(JustCancelled)), n])
                 else t.world.task == task && Says(w, t.world, [n])
  {
    hide Says, EmittedAt, WithCancel, CancelledResult;
    var w0 := CancelAt(w, at, AfterCheck);
    CancelAtSays(w, at, AfterCheck);
    var wa := Attach(w0, r);
    SaysNothing(w0, wa);
    CancelAtSays(wa, at, AfterAttach);
    var w1 := CancelAt(wa, at, AfterAttach);
    CancelAtSays(w1, at, AfterCompare);
    var w2 := CancelAt(w1, at, AfterCompare);
    KeepsIds(w, w0, wa, w1, w2, at);
    var a, b, c := CryAt(w.task, at, AfterCheck), CryAt(wa.task, at, AfterAttach), CryAt(w1.task, at, AfterCompare);
    SaysTwice(w, w0, wa, a, [], a);
    SaysTwice(w, wa, w1, a, b, a + b);
    SaysTwice(w, w1, w2, a + b, c, a + b + c);
    assert HitEarly(at) || AfterCompare in at ==> a + b + c == Cry(w.task);
    if w2.task.status.CanBecome(Failed) {
      var w3 := w2.(task := Transitioned(w2.task, Failed, error));
      SaysNothing(w2, w3);
      SaysTwice(w, w2, w3, a + b + c, [], []);
      LastSays(w, w3, [], OnFailed, Pending, error, at);
      assert [] + [Note(OnFailed, Pending, error)] == [Note(OnFailed, Pending, error)];
      assert [] + [Note(OnCancelled, Failed, Some(JustCancelled)), Note(OnFailed, Pending, error)]
          == [Note(OnCancelled, Failed, Some(JustCancelled)), Note(OnFailed, Pending, error)];
    }
  }

  lemma KeepsIds(w: World, w0: World, wa: World, w1: World, w2: World, at: set<Point>)
    requires Says(w, w0, CryAt(w.task, at, AfterCheck)) && wa.id == w0.id
    requires Says(wa, w1, CryAt(wa.task, at, AfterAttach)) && Says(w1, w2, CryAt(w1.task, at, AfterCompare))
    ensures w0.id == w.id && w1.id == w.id && w2.id == w.id
  {
  }

  // ---- Attempts -----------------------------------------------------------------------------------------

  /** How an attempt ends: the task in all fields, the outcome, and what was announced. */
  datatype Report = Report(task: Snap, outcome: Outcome, notes: seq<Note>)

  /** A CANCELLED task that was so before its terminal write: no error, the text in the result
      and in the event. */
  function Abandoned(id: TaskId, text: Message, outcome: Outcome): Report {
    Report(Snap(Cancelled, None, Some(CancelledResult(id, text)), None), outcome,
           [Note(OnCancelled, Running, Some(text))])
  }

  /** A FAILED task, or one that is cancelled before its FAILED event is out. */
  function Broken(id: TaskId, task: Snap, f: Failure, previous: Status, late: bool): Report
    requires task.status.Failed?
  {
    var n := Note(OnFailed, previous, Some(f.message));
    if late then Report(Struck(id, task), Error(f), [Note(OnCancelled, Failed, Some(JustCancelled)), n])
    else Report(task, Error(f), [n])
  }

  /** After STARTED, by the end of the handler and the cancels. */
  function EndReport(id: TaskId, end: HandlerEnd, at: set<Point>): Report {
    match end
    case Returns(raw) =>
      if Early(at) then Abandoned(id, WasCancelled(id), TaskCancelled(WasCancelled(id)))
      else if HitEarly(at) || AfterCompare in at then
        Abandoned(id, CannotTransition(Cancelled, Succeeded), TaskCancelled(WasCancelled(id)))
      else Report(Snap(Succeeded, None, Some(FromRaw(id, raw)), None), Value(FromRaw(id, raw)),
                  [Note(OnSucceeded, Running, None)])
    case Raises(f) =>
      if Early(at) then Abandoned(id, f.message, TaskCancelled(WasCancelled(id)))
      else if HitEarly(at) || AfterCompare in at then
        Report(Snap(Cancelled, None, Some(FailureResult(id, f)), None), NotAllowed(Cancelled, Failed), [])
      else Broken(id, Snap(Failed, Some(f.message), Some(FailureResult(id, f)), None), f, Running, HitLast(at))
    case Aborts(m) =>
      if Early(at) || HitEarly(at) then Abandoned(id, m, TaskCancelled(m))
      else if AfterCompare in at then
        Report(Snap(Cancelled, None, Some(CancelledResult(id, m)), None), NotAllowed(Cancelled, Cancelled), [])
      else Report(Snap(Cancelled, Some(m), Some(CancelledResult(id, m)), None), TaskCancelled(m),
                  [Note(OnCancelled, Running, Some(m))])
  }

  /** Without a handler: a PENDING task is written FAILED as it is, any other after it has been
      RUNNING for a moment, which clears it. */
  function MissingReport(id: TaskId, entry: Snap, typ: TaskType, at: set<Point>): Report {
    var f := Plain(NoHandler(typ));
    var r, blame := FailureResult(id, f), if entry.status.Pending? then entry.blockedBy else None;
    if !HitEarly(at) && AfterCompare !in at then
      Broken(id, Snap(Failed, Some(f.message), Some(r), blame), f, entry.status, HitLast(at))
    else if !entry.status.Pending? then
      Report(Snap(Cancelled, None, Some(r), None), NotAllowed(Cancelled, Failed), [])
    else
      Report(if AfterCheck in at then entry.(status := Cancelled, result := Some(r)) else Struck(id, entry),
             NotAllowed(Cancelled, Failed), Cry(entry))
  }

  /** The whole attempt. */
  function AttemptReport(id: TaskId, entry: Snap, h: Handler, at: set<Point>): Report {
    if BeforeEntry in at then Report(Struck(id, entry), Error(Plain(CannotExecute(Cancelled))), Cry(entry))
    else if AfterEntry in at then Report(Struck(id, entry), NotAllowed(Cancelled, Running), Cry(entry))
    else match h
      case Missing(typ) => MissingReport(id, entry, typ, at)
      case Present(end) =>
        var r := EndReport(id, end, at);
        r.(notes := [Note(OnStarted, entry.status, None)] + r.notes)
  }

  /** `e`, which began in `w`, is as reported. */
  ghost predicate Follows(w: World, e: Ended, r: Report) {
    e.world.task == r.task && e.outcome == r.outcome && Says(w, e.world, r.notes)
  }

  lemma RaisedSays(w: World, f: Failure, at: set<Point>)
    requires w.task == Snap(if Early(at) then Cancelled else Running, None, None, None)
    ensures Follows(w, Raised(w, f, at), EndReport(w.id, Raises(f), at))
  {
    hide Says, Terminalized;
    if w.task.status.Cancelled? {
      TerminalSays(w, CancelledResult(w.id, f.message), Running, OnCancelled, Some(f.message), at);
    } else {
      TerminalSays(w, FailureResult(w.id, f), Running, OnFailed, Some(f.message), at);
    }
  }

  lemma AbortedSays(w: World, m: Message, at: set<Point>)
    requires w.task == Snap(if Early(at) then Cancelled else Running, None, None, None)
    ensures Follows(w, Aborted(w, m, at), EndReport(w.id, Aborts(m), at))
  {
    hide Says, Terminalized;
    TerminalSays(w, CancelledResult(w.id, m), Running, OnCancelled, Some(m), at);
  }

  lemma ReturnedSays(w: World, raw: Raw, at: set<Point>)
    requires w.task == Snap(if Early(at) then Cancelled else Running, None, None, None)
    ensures Follows(w, Returned(w, raw, at), EndReport(w.id, Returns(raw), at))
  {
    hide Says, Terminalized;
    var r := FromRaw(w.id, raw);
    if w.task.status.Cancelled? {
      TerminalSays(w, CancelledResult(w.id, WasCancelled(w.id)), Running, OnCancelled, Some(WasCancelled(w.id)), at);
    } else {
      TerminalSays(w, r, Running, OnSucceeded, None, at);
      if HitEarly(at) || AfterCompare in at { LostReturn(w, raw, at); }
    }
  }

  /** The refused transition is one more error of the handler. */
  lemma LostReturn(w: World, raw: Raw, at: set<Point>)
    requires w.task == Snap(Running, None, None, None) && !Early(at) && (HitEarly(at) || AfterCompare in at)
    ensures Follows(w, Returned(w, raw, at), EndReport(w.id, Returns(raw), at))
  {
    hide Says, Terminalized;
    var t := Terminalized(w, FromRaw(w.id, raw), Running, OnSucceeded, None, at);
    TerminalSays(w, FromRaw(w.id, raw), Running, OnSucceeded, None, at);
    SaysKeepsId(w, t.world, []);
    var m := CannotTransition(Cancelled, Succeeded);
    TerminalSays(t.world, CancelledResult(w.id, m), Running, OnCancelled, Some(m), at);
    var n := [Note(OnCancelled, Running, Some(m))];
    SaysTwice(w, t.world, Returned(w, raw, at).world, [], n, n);
  }

  lemma StartedSays(w: World, at: set<Point>)
    requires w.task.status.CanBecome(Running)
    ensures var w' := Started(w, at);
            && w'.task == Snap(if Early(at) then Cancelled else Running, None, None, None)
            && Says(w, w', [Note(OnStarted, w.task.status, None)])
  {
    hide Says, EmittedAt, WithCancel;
    var n := [Note(OnStarted, w.task.status, None)];
    var w0 := w.(task := Transitioned(w.task, Running, None));
    CancelAtSays(w0, at, AfterStart);
    var w1 := CancelAt(w0, at, AfterStart);
    SaysNothing(w, w0);
    SaysTwice(w, w0, w1, [], [], []);
    EmittedAtSays(w1, OnStarted, w.task.status, None, at, AfterStartSave);
    var w2 := EmittedAt(w1, OnStarted, w.task.status, None, at, AfterStartSave);
    assert CryAt(w1.task, at, AfterStartSave) + n == n;
    SaysTwice(w, w1, w2, [], n, n);
    CancelAtSays(w2, at, InHandler);
    SaysTwice(w, w2, Started(w, at), n, [], n);
  }

  lemma HandledSays(w: World, end: HandlerEnd, at: set<Point>)
    requires w.task.status.CanBecome(Running) && BeforeEntry !in at && AfterEntry !in at
    ensures Follows(w, Handled(w, end, at), AttemptReport(w.id, w.task, Present(end), at))
  {
    hide Says, Started, Returned, Raised, Aborted, EndReport;
    StartedSays(w, at);
    var w1, n := Started(w, at), [Note(OnStarted, w.task.status, None)];
    SaysKeepsId(w, w1, n);
    match end {
      case Returns(raw) => ReturnedSays(w1, raw, at);
      case Raises(f) => RaisedSays(w1, f, at);
      case Aborts(m) => AbortedSays(w1, m, at);
    }
    var rest := EndReport(w.id, end, at).notes;
    SaysTwice(w, w1, Handled(w, end, at).world, n, rest, n + rest);
  }

  lemma UnhandledSays(w: World, typ: TaskType, at: set<Point>)
    requires w.task.status.CanBecome(Running)
    ensures Follows(w, Unhandled(w, typ, at), MissingReport(w.id, w.task, typ, at))
  {
    hide Says, Terminalized;
    var m, s := NoHandler(typ), w.task.status;
    if s.Pending? {
      PendingSays(w, FailureResult(w.id, Plain(m)), Some(m), at);
    } else {
      var w1 := w.(task := Transitioned(w.task, Running, None));
      TerminalSays(w1, FailureResult(w.id, Plain(m)), s, OnFailed, Some(m), at);
      SaysNothing(w, w1);
      var r := MissingReport(w.id, w.task, typ, at);
      SaysTwice(w, w1, Unhandled(w, typ, at).world, [], r.notes, r.notes);
    }
  }

  /** Every attempt, whatever its handler and the cancels, ends as its report says. */
  lemma AttemptFollows(w: World, h: Handler, at: set<Point>)
    requires w.task.status.CanBecome(Running)
    ensures Follows(w, Attempt(w, h, at), AttemptReport(w.id, w.task, h, at))
  {
    hide Says, Unhandled, Handled, WithCancel, MissingReport, EndReport;
    if BeforeEntry in at || AfterEntry in at {
      CancelSays(w);
      PreventedOutcome(w, h, at);
    } else if h.Missing? {
      UnhandledSays(w, h.typ, at);
    } else {
      HandledSays(w, h.end, at);
    }
  }

  lemma PreventedOutcome(w: World, h: Handler, at: set<Point>)
    requires w.task.status.CanBecome(Running) && (BeforeEntry in at || AfterEntry in at)
    ensures var e := Attempt(w, h, at);
            && e.world == WithCancel(w)
            && e.outcome == (if BeforeEntry in at then Error(Plain(CannotExecute(Cancelled)))
                             else NotAllowed(Cancelled, Running))
  {
    hide Terminalized, Handled;
  }

  /** The error a task keeps after an attempt that has started: the text of its handler's error or
      of the missing handler; None if the handler returned, or if a cancel had marked the task
      while it was RUNNING. */
  function ErrorKept(entry: Snap, h: Handler, at: set<Point>): Option<Message> {
    var marked := HitEarly(at) || AfterCompare in at;
    match h
    case Present(Returns(_)) => None
    case Present(Raises(f)) => if Early(at) || marked then None else Some(f.message)
    case Present(Aborts(m)) => if Early(at) || marked then None else Some(m)
    case Missing(typ) => if !marked then Some(NoHandler(typ)) else if entry.status.Pending? then entry.error else None
  }

  lemma FinalError(w: World, h: Handler, at: set<Point>)
    requires w.task.status.CanBecome(Running) && BeforeEntry !in at && AfterEntry !in at
    ensures Attempt(w, h, at).world.task.error == ErrorKept(w.task, h, at)
  {
    AttemptFollows(w, h, at);
  }

  /** Entering RUNNING leaves no error, result or blame of an earlier attempt. */
  lemma AttemptStartsClean(w: World, at: set<Point>)
    requires w.task.status.CanBecome(Running)
    ensures Started(w, at).task.error == None && Started(w, at).task.result == None
    ensures Started(w, at).task.blockedBy == None
  {
    StartedSays(w, at);
  }

  /** And how an attempt with a handler ends does not depend on them. */
  lemma AttemptForgets(w: World, v: World, end: HandlerEnd, at: set<Point>)
    requires w.task.status.CanBecome(Running) && v.task.status.CanBecome(Running) && v.id == w.id
    requires BeforeEntry !in at && AfterEntry !in at
    ensures Attempt(v, Present(end), at).world.task == Attempt(w, Present(end), at).world.task
    ensures Attempt(v, Present(end), at).outcome == Attempt(w, Present(end), at).outcome
  {
    hide Attempt;
    AttemptFollows(w, Present(end), at);
    AttemptFollows(v, Present(end), at);
  }

  /** Without cancels the last event says what the task keeps: its status and its error. */
  lemma UndisturbedAnnounces(w: World, h: Handler) returns (notes: seq<Note>)
    requires w.task.status.CanBecome(Running)
    ensures Says(w, Attempt(w, h, {}).world, notes) && notes != []
    ensures notes[|notes| - 1].kind.Reaches() == Attempt(w, h, {}).world.task.status
    ensures notes[|notes| - 1].error == Attempt(w, h, {}).world.task.error
  {
    hide Attempt;
    AttemptFollows(w, h, {});
    notes := AttemptReport(w.id, w.task, h, {}).notes;
  }

  /** The result and the outcome say, field by field, what the handler has done. */
  predicate Recorded(id: TaskId, h: Handler, r: Result, outcome: Outcome) {
    match h
    case Present(Returns(raw)) => RecordsReturn(r, id, raw) && outcome == Value(r)
    case Present(Raises(f)) => RecordsFailure(r, id, f) && outcome == Error(f)
    case Present(Aborts(m)) => RecordsCancellation(r, id, m) && outcome == TaskCancelled(m)
    case Missing(typ) =>
      RecordsFailure(r, id, Plain(NoHandler(typ))) && outcome == Error(Plain(NoHandler(typ)))
  }

  lemma UndisturbedRecords(w: World, h: Handler)
    requires w.task.status.CanBecome(Running)
    ensures Attempt(w, h, {}).world.task.result.Some?
    ensures Recorded(w.id, h, Attempt(w, h, {}).world.task.result.value, Attempt(w, h, {}).outcome)
  {
    hide Attempt;
    AttemptFollows(w, h, {});
  }
}
