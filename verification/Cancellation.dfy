/** Cancellation in the middle of an attempt: what always holds, and exactly when status,
    attached result, events and outcome agree. */
module Cancellation {
  import opened Lifecycle
  import opened Execution

  /** A lifecycle event, by its kind and the status it leaves. */
  datatype Mark = Mark(kind: Kind, previous: Status)

  /** The lifecycle events of one task, in order of delivery. */
  function Trail(log: seq<Event>, id: TaskId): seq<Mark> {
    if log == [] then []
    else
      var rest, e := Trail(log[..|log| - 1], id), log[|log| - 1];
      if e.task == id && e.kind.IsLifecycle() && e.previous.Some? then rest + [Mark(e.kind, e.previous.value)] else rest
  }

  /** A store is configured and its saves succeed. */
  ghost predicate Reliable(b: Bus) {
    b.store.Some? && forall n :: !b.fails(n)
  }

  ghost predicate InSync(w: World) {
    Reliable(w.bus) ==> StoredCopy(w.bus, w.id) == Some(w.task)
  }

  /** A cancel has marked the task between the save and the delivery of STARTED. */
  predicate Stale(e: Event) {
    e.kind.OnStarted? && e.live.status.Cancelled? && e.stored == Some(e.live.(status := Running))
  }

  /** At its delivery an event shows the live task, and a reliable store already holds it, or
      still holds the RUNNING one.  The report of a failed save tells why, and no transition. */
  ghost predicate Delivered(b: Bus, e: Event) {
    && e.status == e.live.status
    && if e.kind.IsLifecycle() then e.previous.Some? && (Reliable(b) ==> e.stored == Some(e.live) || Stale(e))
       else e.previous.None? && e.error == Some(SaveFailed)
  }

  /** How many of the first `n` saves fail. */
  function FailedSaves(fails: nat -> bool, n: nat): nat {
    if n == 0 then 0 else FailedSaves(fails, n - 1) + if fails(n - 1) then 1 else 0
  }

  /** The tasks of the PERSISTENCE_FAILED events, in order. */
  function Announced(log: seq<Event>): seq<TaskId> {
    if log == [] then []
    else
      var rest, e := Announced(log[..|log| - 1]), log[|log| - 1];
      if e.kind.OnPersistenceFailed? then rest + [e.task] else rest
  }

  /** Every failed save, and nothing else, is recorded and announced. */
  predicate Ledger(b: Bus) {
    b.lost == Announced(b.log) && |b.lost| == if b.store.Some? then FailedSaves(b.fails, b.saves) else 0
  }

  /** A save that fails leaves the store as it is. */
  ghost predicate StoresOnlySaved(b: Bus, b': Bus) {
    b.saves <= b'.saves && ((forall n :: b.saves <= n < b'.saves ==> b.fails(n)) ==> b'.store == b.store)
  }

  /** The log grows, by events that are delivered in that order, and the ledger stays right. */
  ghost predicate Grows(b: Bus, b': Bus) {
    && b.log <= b'.log && b'.fails == b.fails && b'.store.Some? == b.store.Some?
    && (Ledger(b) ==> Ledger(b')) && StoresOnlySaved(b, b')
    && forall i {:trigger b'.log[i]} :: |b.log| <= i < |b'.log| ==> Delivered(b, b'.log[i])
  }

  lemma GrowsTwice(b: Bus, b1: Bus, b2: Bus)
    requires Grows(b, b1) && Grows(b1, b2)
    ensures Grows(b, b2)
  {
    forall i | |b.log| <= i < |b2.log| ensures Delivered(b, b2.log[i]) {
      if i < |b1.log| { assert b2.log[i] == b1.log[i]; }
    }
  }

  /** The failed saves recorded since `b` are of this task. */
  predicate OnlyLoses(b: Bus, b': Bus, id: TaskId) {
    b.lost <= b'.lost && forall i :: |b.lost| <= i < |b'.lost| ==> b'.lost[i] == id
  }

  /** `w'` comes from `w` by delivering `marks` for this task; other tasks are untouched. */
  ghost predicate Extends(w: World, w': World, marks: seq<Mark>) {
    && w'.id == w.id && Grows(w.bus, w'.bus) && OnlyLoses(w.bus, w'.bus, w.id)
    && Trail(w'.bus.log, w.id) == Trail(w.bus.log, w.id) + marks
    && forall u {:trigger Trail(w'.bus.log, u)} {:trigger StoredCopy(w'.bus, u)} :: u != w.id ==>
         Trail(w'.bus.log, u) == Trail(w.bus.log, u) && StoredCopy(w'.bus, u) == StoredCopy(w.bus, u)
  }

  lemma ExtendsTwice(w: World, w1: World, w2: World, a: seq<Mark>, b: seq<Mark>)
    requires Extends(w, w1, a) && Extends(w1, w2, b)
    ensures Extends(w, w2, a + b)
  {
    GrowsTwice(w.bus, w1.bus, w2.bus);
    var t := Trail(w.bus.log, w.id);
    assert (t + a) + b == t + (a + b);
  }

  lemma ExtendsJoin(w: World, w1: World, w2: World, a: seq<Mark>, b: seq<Mark>, ms: seq<Mark>)
    requires Extends(w, w1, a) && Extends(w1, w2, b) && a + b == ms
    ensures Extends(w, w2, ms)
  {
    ExtendsTwice(w, w1, w2, a, b);
  }

  lemma SameBus(w: World, w': World)
    requires w'.id == w.id && w'.bus == w.bus
    ensures Extends(w, w', [])
  {
  }

  lemma TrailAppend(log: seq<Event>, e: Event, id: TaskId)
    ensures Trail(log + [e], id)
         == if e.task == id && e.kind.IsLifecycle() && e.previous.Some?
            then Trail(log, id) + [Mark(e.kind, e.previous.value)]
            else Trail(log, id)
  {
    assert (log + [e])[..|log|] == log;
  }

  lemma AnnouncedAppend(log: seq<Event>, e: Event)
    ensures Announced(log + [e]) == if e.kind.OnPersistenceFailed? then Announced(log) + [e.task] else Announced(log)
  {
    assert (log + [e])[..|log|] == log;
  }

  /** A save, whether or not it fails, is no lifecycle event. */
  lemma PersistedEffect(w: World)
    ensures var w' := Persisted(w); w'.task == w.task && Extends(w, w', []) && InSync(w')
  {
    var b, b' := w.bus, Persisted(w).bus;
    if b'.log != b.log {
      var e := b'.log[|b.log|];
      assert b'.log == b.log + [e];
      AnnouncedAppend(b.log, e);
      forall u { TrailAppend(b.log, e, u); }
    }
  }

  /** A delivery is one lifecycle event. */
  lemma DeliverEffect(w: World, kind: Kind, previous: Status, error: Option<Message>)
    requires kind.IsLifecycle()
    requires Reliable(w.bus) ==>
               || StoredCopy(w.bus, w.id) == Some(w.task)
               || (kind.OnStarted? && w.task.status.Cancelled?
                   && StoredCopy(w.bus, w.id) == Some(w.task.(status := Running)))
    ensures var w' := Deliver(w, kind, previous, error);
            w'.task == w.task && Extends(w, w', [Mark(kind, previous)]) && (InSync(w) ==> InSync(w'))
  {
    hide FailedSaves;
    var b, b' := w.bus, Deliver(w, kind, previous, error).bus;
    var e := b'.log[|b.log|];
    assert b'.log == b.log + [e];
    AnnouncedAppend(b.log, e);
    forall u { TrailAppend(b.log, e, u); }
  }

  /** An emission is one lifecycle event, whether or not the save before it fails. */
  lemma EmittedEffect(w: World, kind: Kind, previous: Status, error: Option<Message>)
    requires kind.IsLifecycle()
    ensures var w' := Emitted(w, kind, previous, error);
            w'.task == w.task && Extends(w, w', [Mark(kind, previous)]) && InSync(w')
  {
    hide Extends, Deliver, Persisted;
    PersistedEffect(w);
    DeliverEffect(Persisted(w), kind, previous, error);
    ExtendsTwice(w, Persisted(w), Emitted(w, kind, previous, error), [], [Mark(kind, previous)]);
    assert [] + [Mark(kind, previous)] == [Mark(kind, previous)];
  }

  lemma EmittedKeepsTask(w: World, kind: Kind, previous: Status, error: Option<Message>)
    ensures Emitted(w, kind, previous, error).task == w.task && Emitted(w, kind, previous, error).id == w.id
  {
  }

  /** An emission after changes to the task alone. */
  lemma EmittedFrom(w: World, w1: World, kind: Kind, previous: Status, error: Option<Message>)
    requires kind.IsLifecycle() && w1.id == w.id && w1.bus == w.bus
    ensures var w' := Emitted(w1, kind, previous, error);
            w'.task == w1.task && Extends(w, w', [Mark(kind, previous)]) && InSync(w')
  {
    EmittedEffect(w1, kind, previous, error);
  }

  /** The three behaviours of an external cancel. */
  lemma CancelEffect(w: World)
    ensures var w', s := WithCancel(w), w.task.status;
            if s.IsSink() then w' == w
            else if s.Running? then w' == w.(task := w.task.(status := Cancelled)) && Extends(w, w', [])
            else w'.task == w.task.(status := Cancelled, result := Some(CancelledResult(w.id, JustCancelled)))
                 && Extends(w, w', [Mark(OnCancelled, s)]) && InSync(w')
  {
    var w', s := WithCancel(w), w.task.status;
    var w1 := w.(task := w.task.(status := Cancelled));
    if s.Running? {
      SameBus(w, w');
    } else if !s.IsSink() {
      var w2 := Attach(w1, CancelledResult(w.id, JustCancelled));
      EmittedFrom(w, w2, OnCancelled, s, Some(JustCancelled));
    }
  }

  /** A cancel between the save and the delivery: a RUNNING task is only marked, a sink ignores
      it, and any other delivers its CANCELLED event first. */
  lemma EmittedAtEffect(w: World, kind: Kind, previous: Status, error: Option<Message>, at: set<Point>, p: Point)
    requires kind.IsLifecycle() && (w.task.status.Running? ==> kind.OnStarted?)
    ensures var w', s := EmittedAt(w, kind, previous, error, at, p), w.task.status;
            if p !in at || s.IsSink() then
              w'.task == w.task && Extends(w, w', [Mark(kind, previous)]) && InSync(w')
            else if s.Running? then
              w'.task == w.task.(status := Cancelled) && Extends(w, w', [Mark(kind, previous)])
            else
              && w'.task == w.task.(status := Cancelled, result := Some(CancelledResult(w.id, JustCancelled)))
              && Extends(w, w', [Mark(OnCancelled, s), Mark(kind, previous)]) && InSync(w')
  {
    hide Extends, Deliver, Persisted, WithCancel;
    var w', w1, s := EmittedAt(w, kind, previous, error, at, p), Persisted(w), w.task.status;
    PersistedEffect(w);
    CancelEffect(w1);
    var w2 := CancelAt(w1, at, p);
    DeliverEffect(w2, kind, previous, error);
    if p !in at || s.IsSink() {
      EmittedEffect(w, kind, previous, error);
    } else {
      var marks := if s.Running? then [] else [Mark(OnCancelled, s)];
      ExtendsJoin(w, w1, w2, [], marks, marks);
      ExtendsJoin(w, w2, w', marks, [Mark(kind, previous)],
          if s.Running? then [Mark(kind, previous)] else [Mark(OnCancelled, s), Mark(kind, previous)]);
    }
  }

  /** An emission for a task that is RUNNING or in a sink, after changes to the task alone. */
  lemma EmittedAtFrom(w: World, w1: World, kind: Kind, previous: Status, error: Option<Message>, at: set<Point>,
                      p: Point)
    requires kind.IsLifecycle() && w1.id == w.id && w1.bus == w.bus
    requires w1.task.status.IsSink() || (w1.task.status.Running? && kind.OnStarted?)
    ensures var w' := EmittedAt(w1, kind, previous, error, at, p);
            && Extends(w, w', [Mark(kind, previous)])
            && if w1.task.status.Running? && p in at then w'.task == w1.task.(status := Cancelled)
               else w'.task == w1.task && InSync(w')
  {
    hide Extends, InSync, EmittedAt;
    EmittedAtEffect(w1, kind, previous, error, at, p);
    ExtendsFromSameBus(w, w1, EmittedAt(w1, kind, previous, error, at, p), [Mark(kind, previous)]);
  }

  /** A cancel arrives while a task is being marked BLOCKED, after the transition. */
  predicate HitBlock(at: set<Point>) {
    AfterTransition in at || AfterBlame in at || AfterSave in at
  }

  /** Only a PENDING task is blocked, unless a cancel comes first; it records the parent and keeps
      its result.  A later cancel delivers CANCELLED before BLOCKED. */
  lemma BlockEffect(w: World, parent: Option<TaskId>, at: set<Point>)
    ensures var w' := MarkedBlocked(w, parent, at);
            if AfterCheck in at || !w.task.status.Pending? then w' == CancelAt(w, at, AfterCheck)
            else if HitBlock(at) then
              && w'.task == Snap(Cancelled, None, Some(CancelledResult(w.id, JustCancelled)), parent)
              && Extends(w, w', [Mark(OnCancelled, Blocked), Mark(OnBlocked, Pending)]) && InSync(w')
            else
              && w'.task == Snap(Blocked, None, w.task.result, parent)
              && Extends(w, w', [Mark(OnBlocked, Pending)]) && InSync(w')
  {
    hide Extends, InSync, WithCancel, EmittedAt;
    CancelEffect(w);
    if AfterCheck !in at && w.task.status.Pending? {
      var w0 := w.(task := Transitioned(w.task, Blocked, None));
      CancelEffect(w0);
      var w1 := CancelAt(w0, at, AfterTransition);
      var a := if AfterTransition in at then [Mark(OnCancelled, Blocked)] else [];
      if a == [] { SameBus(w, w1); } else { ExtendsFromSameBus(w, w0, w1, a); }
      var w2 := w1.(task := w1.task.(blockedBy := parent));
      CancelEffect(w2);
      var w3 := CancelAt(w2, at, AfterBlame);
      var b := if AfterBlame in at && a == [] then [Mark(OnCancelled, Blocked)] else [];
      if b == [] { SameBus(w1, w3); } else { ExtendsFromSameBus(w1, w2, w3, b); }
      ExtendsJoin(w, w1, w3, a, b, a + b);
      BlockedIsOut(w, w3, a + b, at);
    }
  }

  /** The emission of BLOCKED, CANCELLED having been delivered or not. */
  lemma BlockedIsOut(w: World, w1: World, ms: seq<Mark>, at: set<Point>)
    requires Extends(w, w1, ms)
    requires if w1.task.status.Cancelled? then ms == [Mark(OnCancelled, Blocked)]
             else w1.task.status.Blocked? && ms == []
    ensures var w' := EmittedAt(w1, OnBlocked, Pending, None, at, AfterSave);
            InSync(w') &&
            if w1.task.status.Cancelled? || AfterSave in at then
              && w'.task == (if w1.task.status.Cancelled? then w1.task
                             else w1.task.(status := Cancelled, result := Some(CancelledResult(w1.id, JustCancelled))))
              && Extends(w, w', [Mark(OnCancelled, Blocked), Mark(OnBlocked, Pending)])
            else w'.task == w1.task && Extends(w, w', [Mark(OnBlocked, Pending)])
  {
    hide Extends, InSync, EmittedAt;
    EmittedAtEffect(w1, OnBlocked, Pending, None, at, AfterSave);
    var w' := EmittedAt(w1, OnBlocked, Pending, None, at, AfterSave);
    if w1.task.status.Cancelled? {
      ExtendsJoin(w, w1, w', ms, [Mark(OnBlocked, Pending)], [Mark(OnCancelled, Blocked), Mark(OnBlocked, Pending)]);
    } else if AfterSave in at {
      ExtendsJoin(w, w1, w', ms, [Mark(OnCancelled, Blocked), Mark(OnBlocked, Pending)],
          [Mark(OnCancelled, Blocked), Mark(OnBlocked, Pending)]);
    } else {
      ExtendsJoin(w, w1, w', ms, [Mark(OnBlocked, Pending)], [Mark(OnBlocked, Pending)]);
    }
  }

  lemma ExtendsFromSameBus(w: World, w1: World, w2: World, ms: seq<Mark>)
    requires w1.id == w.id && w1.bus == w.bus && Extends(w1, w2, ms)
    ensures Extends(w, w2, ms)
  {
  }

  /** The task has changed since a reliable store last saved it. */
  ghost predicate Outdated(w: World) {
    Reliable(w.bus) ==> StoredCopy(w.bus, w.id).Some? && StoredCopy(w.bus, w.id) != Some(w.task)
  }

  lemma ChangedSinceSave(w: World, w': World)
    requires InSync(w) && w'.id == w.id && w'.bus == w.bus && w'.task != w.task
    ensures Outdated(w')
  {
  }

  // ---- The terminal write -----------------------------------------------------------

  predicate HitEarly(at: set<Point>) {
    AfterCheck in at || AfterAttach in at
  }

  /** A cancel arrives between the transition and the delivery of the event. */
  predicate HitLast(at: set<Point>) {
    AfterTransition in at || AfterSave in at
  }

  /** The end of a terminal write, after changes to the task alone. */
  lemma LastEffect(w: World, w1: World, kind: Kind, previous: Status, error: Option<Message>, at: set<Point>)
    requires kind.IsLifecycle() && w1.task.status in {Succeeded, Failed, Cancelled} && w1.id == w.id && w1.bus == w.bus
    ensures var w' := EmittedAt(CancelAt(w1, at, AfterTransition), kind, previous, error, at, AfterSave);
            InSync(w') &&
            if w1.task.status.Failed? && HitLast(at) then
              && w'.task.status.Cancelled? && w'.task.result == Some(CancelledResult(w.id, JustCancelled))
              && Extends(w, w', [Mark(OnCancelled, Failed), Mark(kind, previous)])
            else w'.task == w1.task && Extends(w, w', [Mark(kind, previous)])
  {
    hide Extends, InSync, WithCancel, EmittedAt;
    SameBus(w, w1);
    CancelEffect(w1);
    var w2 := CancelAt(w1, at, AfterTransition);
    EmittedAtEffect(w2, kind, previous, error, at, AfterSave);
    var w3 := EmittedAt(w2, kind, previous, error, at, AfterSave);
    var a := if w2 == w1 then [] else [Mark(OnCancelled, Failed)];
    var b := if w1.task.status.Failed? && HitLast(at) && w2 == w1 then [Mark(OnCancelled, Failed), Mark(kind, previous)]
             else [Mark(kind, previous)];
    if w2 == w1 { SameBus(w1, w2); }
    ExtendsJoin(w, w1, w2, [], a, a);
    ExtendsJoin(w, w2, w3, a, b,
        if w1.task.status.Failed? && HitLast(at) then [Mark(OnCancelled, Failed), Mark(kind, previous)]
        else [Mark(kind, previous)]);
  }

  /** From RUNNING: refused exactly when a cancel arrives first, unless it is a cancellation
      that finds itself already done; a FAILED task can still be cancelled before its event. */
  lemma TerminalizedFromRunning(w: World, r: Result, previous: Status, kind: Kind, error: Option<Message>,
      at: set<Point>)
    requires w.task.status.Running? && r.status in {Succeeded, Failed, Cancelled} && kind.Reaches() == r.status
        && kind.IsLifecycle()
    ensures match Terminalized(w, r, previous, kind, error, at)
      case Refused(w') =>
        && (if HitEarly(at) then !r.status.Cancelled? else AfterCompare in at)
        && w'.task.status.Cancelled? && w'.task.result == Some(r) && Extends(w, w', [])
        && w'.id == w.id && w'.bus == w.bus
      case Done(w') =>
        && (if HitEarly(at) then r.status.Cancelled? else AfterCompare !in at)
        && InSync(w')
        && if r.status.Failed? && HitLast(at) then
             && w'.task.status.Cancelled? && w'.task.result == Some(CancelledResult(w.id, JustCancelled))
             && Extends(w, w', [Mark(OnCancelled, Failed), Mark(OnFailed, previous)])
           else w'.task.status == r.status && w'.task.result == Some(r) && Extends(w, w', [Mark(kind, previous)])
  {
    hide Extends, InSync, EmittedAt, WithCancel;
    var w0 := CancelAt(w, at, AfterCheck);
    CancelEffect(w);
    CancelEffect(Attach(w0, r));
    var w1 := CancelAt(Attach(w0, r), at, AfterAttach);
    SameBus(w, w1);
    if w1.task.status == r.status {
      EmittedAtFrom(w, w1, kind, previous, error, at, AfterSave);
    } else {
      CancelEffect(w1);
      var w2 := CancelAt(w1, at, AfterCompare);
      SameBus(w, w2);
      if w2.task.status.CanBecome(r.status) {
        LastEffect(w, w2.(task := Transitioned(w2.task, r.status, error)), kind, previous, error, at);
      }
    }
  }

  /** A cancellation recorded for a task already CANCELLED replaces the result. */
  lemma TerminalizedWhenCancelled(w: World, r: Result, error: Option<Message>, at: set<Point>)
    requires w.task.status.Cancelled? && r.status.Cancelled?
    ensures var t := Terminalized(w, r, Running, OnCancelled, error, at);
            && t.Done? && t.world.task == w.task.(result := Some(r)) && InSync(t.world)
            && Extends(w, t.world, [Mark(OnCancelled, Running)])
  {
    hide Extends, InSync, EmittedAt;
    CancelEffect(w);
    var w1 := Attach(w, r);
    CancelEffect(w1);
    EmittedAtFrom(w, w1, OnCancelled, Running, error, at, AfterSave);
  }

  /** Without a handler, a PENDING task is written FAILED directly, and a cancel that comes
      between leaves its own event and result, the result possibly to be overwritten. */
  lemma TerminalizedFromPending(w: World, r: Result, error: Option<Message>, at: set<Point>)
    requires w.task.status.Pending? && r.status.Failed?
    ensures match Terminalized(w, r, Pending, OnFailed, error, at)
      case Refused(w') =>
        && (HitEarly(at) || AfterCompare in at)
        && w'.task.status.Cancelled? && Extends(w, w', [Mark(OnCancelled, Pending)])
        && (if AfterCheck in at then w'.task.result == Some(r) && Outdated(w')
            else w'.task.result == Some(CancelledResult(w.id, JustCancelled)) && InSync(w'))
      case Done(w') =>
        && !HitEarly(at) && AfterCompare !in at && InSync(w')
        && if HitLast(at) then
             && w'.task.status.Cancelled? && w'.task.result == Some(CancelledResult(w.id, JustCancelled))
             && Extends(w, w', [Mark(OnCancelled, Failed), Mark(OnFailed, Pending)])
           else w'.task.status.Failed? && w'.task.result == Some(r) && Extends(w, w', [Mark(OnFailed, Pending)])
  {
    hide InSync, EmittedAt, WithCancel, Outdated;
    var w0 := CancelAt(w, at, AfterCheck);
    CancelEffect(w);
    CancelEffect(Attach(w0, r));
    var w1 := CancelAt(Attach(w0, r), at, AfterAttach);
    CancelEffect(w1);
    var w2 := CancelAt(w1, at, AfterCompare);
    if AfterCheck in at { ChangedSinceSave(w0, w2); }
    if w2.task.status.CanBecome(Failed) {
      LastEffect(w, w2.(task := Transitioned(w2.task, Failed, error)), OnFailed, Pending, error, at);
    }
  }

  // ---- The ends of an attempt -------------------------------------------------------

  /** The events delivered since `w`. */
  function Since(w: World, w': World): seq<Mark> {
    var before, after := Trail(w.bus.log, w.id), Trail(w'.bus.log, w.id);
    if |before| <= |after| then after[|before|..] else []
  }

  lemma SinceExtends(w: World, w': World, marks: seq<Mark>)
    requires Extends(w, w', marks)
    ensures Since(w, w') == marks
  {
  }

  function Count(ms: seq<Mark>, k: Kind): nat {
    if ms == [] then 0 else Count(ms[..|ms| - 1], k) + if ms[|ms| - 1].kind == k then 1 else 0
  }

  lemma {:induction false} CountTwice(a: seq<Mark>, b: seq<Mark>, k: Kind)
    ensures Count(a + b, k) == Count(a, k) + Count(b, k)
    decreases |b|
  {
    if b == [] {
      assert a + b == a;
    } else {
      CountTwice(a, b[..|b| - 1], k);
      assert (a + b)[..|a + b| - 1] == a + b[..|b| - 1];
    }
  }

  lemma CountShort(ms: seq<Mark>, k: Kind)
    requires |ms| <= 3
    ensures Count(ms, k)
        == (if |ms| > 0 && ms[0].kind == k then 1 else 0) + (if |ms| > 1 && ms[1].kind == k then 1 else 0)
           + (if |ms| > 2 && ms[2].kind == k then 1 else 0)
  {
    if ms != [] { CountShort(ms[..|ms| - 1], k); }
  }

  /** Nothing but STARTED, then one terminal event for the status `s`. */
  predicate OneTerminal(marks: seq<Mark>, s: Status) {
    && marks != [] && !marks[|marks| - 1].kind.OnStarted? && marks[|marks| - 1].kind.Reaches() == s
    && forall i :: 0 <= i < |marks| - 1 ==> marks[i].kind.OnStarted?
  }

  /** Status, attached result, events and outcome of an attempt tell the same story. */
  predicate Consistent(w: World, e: Ended) {
    ResultMatches(e) && OneTerminal(Since(w, e.world), e.world.task.status)
  }

  predicate ResultMatches(e: Ended) {
    var s := e.world.task.status;
    && s in {Succeeded, Failed, Cancelled}
    && e.world.task.result.Some? && e.world.task.result.value.status == s
    && (e.outcome.Value? <==> s.Succeeded?)
    && (e.outcome.Value? ==> e.world.task.result == Some(e.outcome.result))
  }

  function TerminalKind(s: Status): Kind {
    if s.Succeeded? then OnSucceeded else if s.Failed? then OnFailed else OnCancelled
  }

  predicate ResultOk(s: Snap) {
    s.result.Some? && s.result.value.status == s.status
  }

  /** The kind of the outcome tells the status. */
  predicate Tells(e: Ended) {
    && (e.outcome.Value? <==> e.world.task.status.Succeeded?)
    && (e.outcome.Error? <==> e.world.task.status.Failed?)
    && (e.outcome.TaskCancelled? <==> e.world.task.status.Cancelled?)
  }

  /** What a badly timed cancel does to an attempt, which then always ends CANCELLED: the
      terminal event is lost, with a FAILED result attached (`Lost`) or with the right one
      (`Silent`); the result of the cancel is overwritten (`Overwritten`); or a FAILED (or
      BLOCKED) event follows the CANCELLED one (`Doubled`). */
  datatype Flaw = Clean | Lost | Silent | Overwritten | Doubled {
    predicate LosesEvent() {
      Lost? || Silent?
    }

    predicate SpoilsResult() {
      Lost? || Overwritten?
    }

    predicate LeavesUnsaved() {
      Lost? || Silent? || Overwritten?
    }
  }

  /** A cancel arrives after the exception handler has looked at the status. */
  predicate Late(at: set<Point>) {
    HitEarly(at) || AfterCompare in at || HitLast(at)
  }

  function FailureFlaw(at: set<Point>): Flaw {
    if HitEarly(at) || AfterCompare in at then Lost else if HitLast(at) then Doubled else Clean
  }

  /** From RUNNING or CANCELLED, after STARTED: the end of an attempt, by its flaw. */
  ghost predicate Finishes(w: World, e: Ended, ms: seq<Mark>, s: Status, flaw: Flaw) {
    && Extends(w, e.world, ms) && e.world.task.status == s && s in {Succeeded, Failed, Cancelled}
    && (e.outcome.Value? <==> s.Succeeded?) && (Tells(e) <==> flaw.Clean?) && e.world.id == w.id
    && (!flaw.Clean? ==> s.Cancelled? && (ResultOk(e.world.task) <==> !flaw.SpoilsResult()))
    && match flaw
       case Clean => InSync(e.world) && ResultMatches(e) && ms == [Mark(TerminalKind(s), Running)]
       case Doubled => InSync(e.world) && ms == [Mark(OnCancelled, Failed), Mark(OnFailed, Running)]
       case _ => e.world.bus == w.bus && ms == [] && !flaw.Overwritten?
  }

  lemma RaisedEffect(w: World, f: Failure, at: set<Point>) returns (ms: seq<Mark>)
    requires w.task.status in {Running, Cancelled}
    ensures Finishes(w, Raised(w, f, at), ms, if w.task.status.Cancelled? || Late(at) then Cancelled else Failed,
                     if w.task.status.Cancelled? then Clean else FailureFlaw(at))
  {
    hide Extends, InSync, Terminalized;
    if w.task.status.Cancelled? {
      TerminalizedWhenCancelled(w, CancelledResult(w.id, f.message), Some(f.message), at);
      ms := [Mark(OnCancelled, Running)];
    } else {
      TerminalizedFromRunning(w, FailureResult(w.id, f), Running, OnFailed, Some(f.message), at);
      ms := if HitEarly(at) || AfterCompare in at then []
            else if HitLast(at) then [Mark(OnCancelled, Failed), Mark(OnFailed, Running)]
            else [Mark(OnFailed, Running)];
    }
    KeepsId(w, Raised(w, f, at).world, ms);
  }

  lemma KeepsId(w: World, w': World, ms: seq<Mark>)
    requires Extends(w, w', ms)
    ensures w'.id == w.id
  {
  }

  lemma AbortedEffect(w: World, m: Message, at: set<Point>) returns (ms: seq<Mark>)
    requires w.task.status in {Running, Cancelled}
    ensures Finishes(w, Aborted(w, m, at), ms, Cancelled,
                     if w.task.status.Cancelled? || HitEarly(at) || AfterCompare !in at then Clean else Silent)
  {
    hide Extends, InSync, Terminalized;
    var r := CancelledResult(w.id, m);
    if w.task.status.Cancelled? {
      TerminalizedWhenCancelled(w, r, Some(m), at);
      ms := [Mark(OnCancelled, Running)];
    } else {
      TerminalizedFromRunning(w, r, Running, OnCancelled, Some(m), at);
      ms := if HitEarly(at) || AfterCompare !in at then [Mark(OnCancelled, Running)] else [];
    }
    KeepsId(w, Aborted(w, m, at).world, ms);
  }

  /** A return that loses the race to a cancel is recorded as cancelled, replacing its result. */
  lemma ReturnedEffect(w: World, raw: Raw, at: set<Point>) returns (ms: seq<Mark>)
    requires w.task.status in {Running, Cancelled}
    ensures Finishes(w, Returned(w, raw, at), ms,
                     if w.task.status.Cancelled? || HitEarly(at) || AfterCompare in at then Cancelled else Succeeded,
                     Clean)
  {
    hide Extends, InSync, Terminalized, Aborted, Raised;
    var r := FromRaw(w.id, raw);
    if w.task.status.Cancelled? {
      ms := AbortedEffect(w, WasCancelled(w.id), at);
    } else {
      TerminalizedFromRunning(w, r, Running, OnSucceeded, None, at);
      match Terminalized(w, r, Running, OnSucceeded, None, at) {
        case Done(w') =>
          ms := [Mark(OnSucceeded, Running)];
          KeepsId(w, w', ms);
        case Refused(w') =>
          ms := RaisedEffect(w', Plain(CannotTransition(Cancelled, Succeeded)), at);
          ExtendsTwice(w, w', Returned(w, raw, at).world, [], ms);
          assert [] + ms == ms;
      }
    }
  }

  // ---- Attempts -----------------------------------------------------------------------

  /** The status the handler's end leads to when no cancel interferes. */
  function Verdict(end: HandlerEnd): Status {
    match end
    case Returns(_) => Succeeded
    case Raises(_) => Failed
    case Aborts(_) => Cancelled
  }

  /** A cancel arrives before the attempt decides how it ends. */
  predicate Early(at: set<Point>) {
    AfterStart in at || AfterStartSave in at || InHandler in at
  }

  function EndFlaw(end: HandlerEnd, at: set<Point>): Flaw {
    if Early(at) then Clean
    else match end
      case Returns(_) => Clean
      case Raises(_) => FailureFlaw(at)
      case Aborts(_) => if HitEarly(at) || AfterCompare !in at then Clean else Silent
  }

  function FinalStatus(end: HandlerEnd, at: set<Point>): Status {
    if Early(at) || HitEarly(at) || AfterCompare in at || (end.Raises? && HitLast(at)) then Cancelled
    else Verdict(end)
  }

  /** The task is RUNNING and STARTED is out; a cancel so far has only marked it. */
  lemma StartedEffect(w: World, at: set<Point>)
    requires w.task.status.CanBecome(Running)
    ensures var w' := Started(w, at);
            && w'.task.status == (if Early(at) then Cancelled else Running)
            && Extends(w, w', [Mark(OnStarted, w.task.status)])
            && (!Early(at) ==> InSync(w'))
  {
    hide Extends, InSync, EmittedAt;
    var s := w.task.status;
    var w0 := w.(task := Transitioned(w.task, Running, None));
    CancelEffect(w0);
    var w1 := CancelAt(w0, at, AfterStart);
    EmittedAtFrom(w, w1, OnStarted, s, None, at, AfterStartSave);
    var w2 := EmittedAt(w1, OnStarted, s, None, at, AfterStartSave);
    CancelEffect(w2);
    var w3 := CancelAt(w2, at, InHandler);
    SameBus(w2, w3);
    ExtendsJoin(w, w2, w3, [Mark(OnStarted, s)], [], [Mark(OnStarted, s)]);
  }

  /** What a flawed attempt delivers, from status `entry`. */
  predicate FlawedTail(entry: Status, ms: seq<Mark>, flaw: Flaw) {
    match flaw
    case Clean => false
    case Lost => ms == [] || ms == [Mark(OnStarted, entry)]
    case Silent => ms == [Mark(OnStarted, entry)]
    case Overwritten => ms == [Mark(OnCancelled, entry)]
    case Doubled =>
      || ms == [Mark(OnCancelled, Failed), Mark(OnFailed, entry)]
      || ms == [Mark(OnStarted, entry), Mark(OnCancelled, Failed), Mark(OnFailed, Running)]
  }

  /** The events of an attempt without flaw: a cancel that prevents it, a refusal for want of a
      handler, or STARTED and one terminal event. */
  predicate AttemptShape(entry: Status, h: Handler, ms: seq<Mark>, s: Status) {
    || (ms == [Mark(OnCancelled, entry)] && s.Cancelled?)
    || (h.Missing? && ms == [Mark(OnFailed, entry)] && s.Failed?)
    || (h.Present? && ms == [Mark(OnStarted, entry), Mark(TerminalKind(s), Running)])
  }

  /** An attempt that starts in `w`, by its flaw. */
  ghost predicate Ends(w: World, e: Ended, h: Handler, ms: seq<Mark>, flaw: Flaw) {
    var entry, s := w.task.status, e.world.task.status;
    && Extends(w, e.world, ms) && s in {Succeeded, Failed, Cancelled} && (e.outcome.Value? <==> s.Succeeded?)
    && if flaw.Clean? then InSync(e.world) && ResultMatches(e) && AttemptShape(entry, h, ms, s)
       else
         && s.Cancelled? && FlawedTail(entry, ms, flaw)
         && (ResultOk(e.world.task) <==> !flaw.SpoilsResult())
         && if !flaw.LeavesUnsaved() then InSync(e.world) else (h.Missing? && e.world.bus == w.bus) || Outdated(e.world)
  }

  /** An attempt with a handler: STARTED, then the end of the attempt. */
  lemma HandledEffect(w: World, end: HandlerEnd, at: set<Point>) returns (ms: seq<Mark>)
    requires w.task.status.CanBecome(Running)
    ensures var e := Handled(w, end, at);
            && Ends(w, e, Present(end), ms, EndFlaw(end, at)) && e.world.task.status == FinalStatus(end, at)
            && (Tells(e) <==> EndFlaw(end, at).Clean?)
  {
    hide Extends, InSync, Started, Outdated, Raised, Aborted, Returned;
    StartedEffect(w, at);
    var w1, e := Started(w, at), Handled(w, end, at);
    var rest;
    match end {
      case Returns(raw) => rest := ReturnedEffect(w1, raw, at);
      case Raises(f) => rest := RaisedEffect(w1, f, at);
      case Aborts(m) => rest := AbortedEffect(w1, m, at);
    }
    ms := [Mark(OnStarted, w.task.status)] + rest;
    ExtendsTwice(w, w1, e.world, [Mark(OnStarted, w.task.status)], rest);
    if EndFlaw(end, at).LeavesUnsaved() { ChangedSinceSave(w1, e.world); }
  }

  function MissingFlaw(entry: Status, at: set<Point>): Flaw {
    if !entry.Pending? then FailureFlaw(at)
    else if AfterCheck in at then Overwritten
    else if AfterAttach in at || AfterCompare in at then Clean
    else if HitLast(at) then Doubled
    else Clean
  }

  /** How a handler-less attempt ends. */
  ghost predicate EndsMissing(w: World, e: Ended, typ: TaskType, at: set<Point>, ms: seq<Mark>) {
    && Ends(w, e, Missing(typ), ms, MissingFlaw(w.task.status, at))
    && e.outcome.Error? && e.world.task.status == (if Late(at) then Cancelled else Failed)
  }

  lemma UnhandledPending(w: World, typ: TaskType, at: set<Point>) returns (ms: seq<Mark>)
    requires w.task.status.Pending?
    ensures EndsMissing(w, Unhandled(w, typ, at), typ, at, ms)
  {
    hide Extends, InSync, Terminalized, Outdated;
    var m := NoHandler(typ);
    TerminalizedFromPending(w, FailureResult(w.id, Plain(m)), Some(m), at);
    ms := if HitEarly(at) || AfterCompare in at then [Mark(OnCancelled, Pending)]
          else if HitLast(at) then [Mark(OnCancelled, Failed), Mark(OnFailed, Pending)]
          else [Mark(OnFailed, Pending)];
  }

  lemma UnhandledAgain(w: World, typ: TaskType, at: set<Point>) returns (ms: seq<Mark>)
    requires w.task.status in {Failed, Blocked}
    ensures EndsMissing(w, Unhandled(w, typ, at), typ, at, ms)
  {
    hide Extends, InSync, Terminalized, Outdated;
    var s, m := w.task.status, NoHandler(typ);
    var w1 := w.(task := Transitioned(w.task, Running, None));
    TerminalizedFromRunning(w1, FailureResult(w.id, Plain(m)), s, OnFailed, Some(m), at);
    ms := if HitEarly(at) || AfterCompare in at then []
          else if HitLast(at) then [Mark(OnCancelled, Failed), Mark(OnFailed, s)]
          else [Mark(OnFailed, s)];
    ExtendsFromSameBus(w, w1, Unhandled(w, typ, at).world, ms);
  }

  /** The flaw of an attempt on a task in status `entry`, from the handler and the cancels. */
  function AttemptFlaw(entry: Status, h: Handler, at: set<Point>): Flaw {
    if BeforeEntry in at || AfterEntry in at then Clean
    else match h
      case Missing(_) => MissingFlaw(entry, at)
      case Present(end) => EndFlaw(end, at)
  }

  /** The status an attempt ends with, for every handler and every cancel. */
  function AttemptStatus(h: Handler, at: set<Point>): Status {
    if BeforeEntry in at || AfterEntry in at then Cancelled
    else match h
      case Missing(_) => if Late(at) then Cancelled else Failed
      case Present(end) => FinalStatus(end, at)
  }

  /** The cancels after which the outcome of a single attempt still tells the status. */
  predicate AttemptTells(h: Handler, at: set<Point>) {
    && BeforeEntry !in at && AfterEntry !in at
    && match h
       case Missing(_) => !Late(at)
       case Present(end) => EndFlaw(end, at).Clean?
  }

  /** Every attempt, whatever its handler and the cancels. */
  lemma AttemptEffect(w: World, h: Handler, at: set<Point>) returns (ms: seq<Mark>)
    requires w.task.status.CanBecome(Running)
    ensures var e := Attempt(w, h, at);
            && Ends(w, e, h, ms, AttemptFlaw(w.task.status, h, at))
            && e.world.task.status == AttemptStatus(h, at)
            && (Tells(e) <==> AttemptTells(h, at))
            && (e.outcome.TaskCancelled? ==> e.world.task.status.Cancelled?)
  {
    hide Extends, InSync, Unhandled, Handled, WithCancel, Attempt, Outdated;
    var e, entry := Attempt(w, h, at), w.task.status;
    if BeforeEntry in at || AfterEntry in at {
      ms := [Mark(OnCancelled, entry)];
      Prevented(w, h, at);
    } else {
      AttemptUnfolds(w, h, at);
      match h {
        case Missing(typ) =>
          if entry.Pending? { ms := UnhandledPending(w, typ, at); } else { ms := UnhandledAgain(w, typ, at); }
        case Present(end) => ms := HandledEffect(w, end, at);
      }
    }
  }

  lemma AttemptUnfolds(w: World, h: Handler, at: set<Point>)
    requires w.task.status.CanBecome(Running) && BeforeEntry !in at && AfterEntry !in at
    ensures Attempt(w, h, at) == if h.Missing? then Unhandled(w, h.typ, at) else Handled(w, h.end, at)
  {
    hide Unhandled, Handled;
  }

  lemma Prevented(w: World, h: Handler, at: set<Point>)
    requires w.task.status.CanBecome(Running) && (BeforeEntry in at || AfterEntry in at)
    ensures var e := Attempt(w, h, at);
            && e.world == WithCancel(w) && e.outcome.Error? && ResultMatches(e) && InSync(e.world)
            && e.world.task.status.Cancelled? && Extends(w, e.world, [Mark(OnCancelled, w.task.status)])
  {
    hide Extends, InSync, Terminalized, WithCancel;
    CancelEffect(w);
  }

  /** Whatever cancels arrive during an attempt, and however its handler ends: the status is
      SUCCEEDED, FAILED or CANCELLED, and the attempt returns exactly when it is SUCCEEDED. */
  lemma AttemptKeepsContract(w: World, h: Handler, at: set<Point>)
    requires w.task.status.CanBecome(Running)
    ensures var e := Attempt(w, h, at);
            && e.world.task.status in {Succeeded, Failed, Cancelled}
            && (e.outcome.Value? <==> e.world.task.status.Succeeded?)
            && (e.outcome.TaskCancelled? ==> e.world.task.status.Cancelled?)
            && e.world.task.status == AttemptStatus(h, at)
  {
    var _ := AttemptEffect(w, h, at);
  }

  /** Status, result, exactly one terminal event and outcome agree after an attempt if and
      only if no cancel falls into one of the windows of `AttemptFlaw`. */
  lemma ConsistentIffClean(w: World, h: Handler, at: set<Point>)
    requires w.task.status.CanBecome(Running)
    ensures Consistent(w, Attempt(w, h, at)) <==> AttemptFlaw(w.task.status, h, at).Clean?
  {
    hide Extends, InSync, Attempt, AttemptFlaw, Outdated, Since;
    var ms := AttemptEffect(w, h, at);
    SinceExtends(w, Attempt(w, h, at).world, ms);
  }

  /** A handler that returns is safe from every cancel. */
  lemma ReturningIsCancelSafe(w: World, raw: Raw, at: set<Point>)
    requires w.task.status.CanBecome(Running)
    ensures Consistent(w, Attempt(w, Present(Returns(raw)), at))
  {
    ConsistentIffClean(w, Present(Returns(raw)), at);
  }

  /** A task that cannot enter RUNNING is left alone (unless a cancel comes first). */
  lemma AttemptRefused(w: World, h: Handler, at: set<Point>)
    requires !w.task.status.CanBecome(Running) && (BeforeEntry in at ==> w.task.status.IsSink())
    ensures Attempt(w, h, at) == Ended(w, Error(Plain(CannotExecute(w.task.status))))
  {
  }

  // ---- Inputs on which an attempt is inconsistent -----------------------------------------

  /** What the terminal write from RUNNING leaves is what the attempt leaves, after STARTED. */
  lemma AfterStarted(w: World, end: HandlerEnd, at: set<Point>, ms: seq<Mark>)
    requires w.task.status.CanBecome(Running) && BeforeEntry !in at && AfterEntry !in at && !Early(at)
    requires Extends(Started(w, at), Attempt(w, Present(end), at).world, ms)
    ensures Since(w, Attempt(w, Present(end), at).world) == [Mark(OnStarted, w.task.status)] + ms
  {
    hide Extends, Started, Attempt;
    var w' := Attempt(w, Present(end), at).world;
    StartedEffect(w, at);
    ExtendsTwice(w, Started(w, at), w', [Mark(OnStarted, w.task.status)], ms);
    SinceExtends(w, w', [Mark(OnStarted, w.task.status)] + ms);
  }

  /** The handler raises, the exception handler finds the task RUNNING, then the cancel lands:
      a CANCELLED task with a FAILED result, no terminal event, and the transition's error. */
  lemma CancelAfterCheckIsLost(w: World, f: Failure)
    requires w.task.status.CanBecome(Running)
    ensures var e := Attempt(w, Present(Raises(f)), {AfterCheck});
            && e.world.task.status.Cancelled? && e.world.task.result == Some(FailureResult(w.id, f))
            && Since(w, e.world) == [Mark(OnStarted, w.task.status)]
            && e.outcome == Error(Plain(CannotTransition(Cancelled, Failed)))
  {
    hide Extends, InSync, Started, Terminalized, Since;
    var at := {AfterCheck};
    AttemptUnfolds(w, Present(Raises(f)), at);
    StartedEffect(w, at);
    StartedKeepsId(w, at);
    TerminalizedFromRunning(Started(w, at), FailureResult(w.id, f), Running, OnFailed, Some(f.message), at);
    AfterStarted(w, Raises(f), at, []);
  }

  /** The same cancel one statement later, after the transition: both a CANCELLED and a FAILED
      event, in that order, for a CANCELLED task. */
  lemma CancelAfterTransitionIsDoubled(w: World, f: Failure)
    requires w.task.status.CanBecome(Running)
    ensures var e := Attempt(w, Present(Raises(f)), {AfterTransition});
            && e.world.task.status.Cancelled? && e.outcome == Error(f)
            && Since(w, e.world)
               == [Mark(OnStarted, w.task.status)] + [Mark(OnCancelled, Failed), Mark(OnFailed, Running)]
  {
    hide Extends, InSync, Started, Terminalized, Since;
    var at := {AfterTransition};
    AttemptUnfolds(w, Present(Raises(f)), at);
    StartedEffect(w, at);
    StartedKeepsId(w, at);
    TerminalizedFromRunning(Started(w, at), FailureResult(w.id, f), Running, OnFailed, Some(f.message), at);
    AfterStarted(w, Raises(f), at, [Mark(OnCancelled, Failed), Mark(OnFailed, Running)]);
  }

  /** The handler raises `TaskCancelled` and the cancel lands between comparison and transition:
      a CANCELLED task and result, but no terminal event, and the transition's error. */
  lemma CancelAfterCompareLosesEvent(w: World, m: Message)
    requires w.task.status.CanBecome(Running)
    ensures var e := Attempt(w, Present(Aborts(m)), {AfterCompare});
            && e.world.task.status.Cancelled? && e.world.task.result == Some(CancelledResult(w.id, m))
            && Since(w, e.world) == [Mark(OnStarted, w.task.status)]
            && e.outcome == Error(Plain(CannotTransition(Cancelled, Cancelled)))
  {
    hide Extends, InSync, Started, Terminalized, Since;
    var at := {AfterCompare};
    AttemptUnfolds(w, Present(Aborts(m)), at);
    StartedEffect(w, at);
    StartedKeepsId(w, at);
    TerminalizedFromRunning(Started(w, at), CancelledResult(w.id, m), Running, OnCancelled, Some(m), at);
    AfterStarted(w, Aborts(m), at, []);
  }

  lemma StartedKeepsId(w: World, at: set<Point>)
    requires w.task.status.CanBecome(Running)
    ensures Started(w, at).id == w.id
  {
    StartedEffect(w, at);
  }
}
