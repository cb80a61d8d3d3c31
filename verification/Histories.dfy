/** Histories: any sequence of executor operations on any number of tasks. */
module Histories {
  import opened Lifecycle
  import opened Execution
  import opened Cancellation
  import opened Retries

  datatype Op =
    | DoCancel(task: TaskId)
    | DoBlock(task: TaskId, parent: Option<TaskId>, at: set<Point>)
    | DoExecute(task: TaskId, typ: TaskType, handled: bool, attempts: nat, scripts: nat -> Script)

  datatype Sys = Sys(tasks: map<TaskId, Snap>, bus: Bus)

  function WorldOf(s: Sys, t: TaskId): World
    requires t in s.tasks
  {
    World(t, s.tasks[t], s.bus)
  }

  predicate Applies(s: Sys, op: Op) {
    op.task in s.tasks && (op.DoExecute? ==> op.attempts >= 1)
  }

  function Effect(w: World, op: Op): World
    requires op.DoExecute? ==> op.attempts >= 1
  {
    match op
    case DoCancel(_) => WithCancel(w)
    case DoBlock(_, parent, at) => MarkedBlocked(w, parent, at)
    case DoExecute(_, typ, handled, n, scripts) => Execute(w, typ, handled, n, scripts).world
  }

  function Apply(s: Sys, op: Op): Sys
    requires Applies(s, op)
  {
    var w := Effect(WorldOf(s, op.task), op);
    Sys(s.tasks[op.task := w.task], w.bus)
  }

  /** `ops` leads from `s` to `s'`. */
  ghost predicate Leads(s: Sys, ops: seq<Op>, s': Sys)
    decreases |ops|
  {
    if ops == [] then s == s' else Applies(s, ops[0]) && Leads(Apply(s, ops[0]), ops[1..], s')
  }

  /** The flaw of an operation on a task in status `entry`. */
  function OpFlaw(entry: Status, op: Op): Flaw
    requires op.DoExecute? ==> op.attempts >= 1
  {
    if op.DoBlock? then if entry.Pending? && AfterCheck !in op.at && HitBlock(op.at) then Doubled else Clean
    else if op.DoCancel? || entry.IsSink() then Clean
    else if op.attempts == 1 || !op.handled then
      AttemptFlaw(entry, if op.handled then Present(op.scripts(0).end) else Missing(op.typ), op.scripts(0).at)
    else RetryFlaw(op.attempts, op.scripts, 0)
  }

  /** The flaw in what has happened to task `t`; a flawed operation is the last that has effect. */
  function HistoryFlaw(s: Sys, ops: seq<Op>, t: TaskId): Flaw
    requires t in s.tasks
    decreases |ops|
  {
    if ops == [] || !Applies(s, ops[0]) then Clean
    else
      var flaw := if ops[0].task == t then OpFlaw(s.tasks[t].status, ops[0]) else Clean;
      if flaw.Clean? then HistoryFlaw(Apply(s, ops[0]), ops[1..], t) else flaw
  }

  // ---- Legal trails ---------------------------------------------------------------------

  /** A lifecycle event moves the status legally; a missing handler takes FAILED and BLOCKED
      tasks to FAILED in one event. */
  predicate LegalMark(m: Mark) {
    m.previous.CanBecome(m.kind.Reaches()) || (m.kind.OnFailed? && m.previous in {Failed, Blocked})
  }

  /** Each event leaves the status the one before it reached: from `entry` to `s`. */
  predicate Chain(entry: Status, ms: seq<Mark>, s: Status) {
    if ms == [] then entry == s
    else
      var m := ms[|ms| - 1];
      m.kind.Reaches() == s && LegalMark(m) && Chain(entry, ms[..|ms| - 1], m.previous)
  }

  lemma {:induction false} ChainTwice(a: Status, ms: seq<Mark>, b: Status, ns: seq<Mark>, c: Status)
    requires Chain(a, ms, b) && Chain(b, ns, c)
    ensures Chain(a, ms + ns, c)
    decreases |ns|
  {
    if ns == [] {
      assert ms + ns == ms;
    } else {
      var last := ns[|ns| - 1];
      ChainTwice(a, ms, b, ns[..|ns| - 1], last.previous);
      assert (ms + ns)[..|ms + ns| - 1] == ms + ns[..|ns| - 1];
    }
  }

  lemma ChainOne(m: Mark)
    requires LegalMark(m)
    ensures Chain(m.previous, [m], m.kind.Reaches())
  {
    assert [m][..0] == [];
  }

  lemma ChainPair(m: Mark, n: Mark)
    requires LegalMark(m) && LegalMark(n) && n.previous == m.kind.Reaches()
    ensures Chain(m.previous, [m, n], n.kind.Reaches())
  {
    ChainOne(m);
    ChainOne(n);
    ChainTwice(m.previous, [m], n.previous, [n], n.kind.Reaches());
    assert [m] + [n] == [m, n];
  }

  lemma AttemptChains(entry: Status, h: Handler, ms: seq<Mark>, s: Status)
    requires entry.CanBecome(Running) && AttemptShape(entry, h, ms, s) && s in {Succeeded, Failed, Cancelled}
    ensures Chain(entry, ms, s)
  {
    hide Chain;
    if |ms| == 1 { ChainOne(ms[0]); } else { ChainPair(ms[0], ms[1]); }
  }

  lemma {:induction false} RetryChains(entry: Status, ms: seq<Mark>, n: nat, s: Status)
    requires entry.CanBecome(Running) && RetryShape(entry, ms, n, s)
    ensures Chain(entry, ms, s)
    decreases n
  {
    hide Chain;
    if |ms| == 1 { ChainOne(ms[0]); }
    else if |ms| == 2 { ChainPair(ms[0], ms[1]); }
    else {
      ChainPair(Mark(OnStarted, entry), Mark(OnFailed, Running));
      assert ms == ms[..2] + ms[2..];
      if ms == [Mark(OnStarted, entry), Mark(OnFailed, Running), Mark(OnCancelled, Failed)] {
        assert ms[..2] == [Mark(OnStarted, entry), Mark(OnFailed, Running)] && ms[2..] == [Mark(OnCancelled, Failed)];
        ChainOne(ms[2]);
      } else {
        RetryChains(Failed, ms[2..], n - 1, s);
      }
      ChainTwice(entry, ms[..2], Failed, ms[2..], s);
    }
  }

  /** A sink is entered at most once, and left never. */
  lemma {:induction false} SinkOnce(entry: Status, ms: seq<Mark>, s: Status, k: Kind)
    requires Chain(entry, ms, s) && k in {OnSucceeded, OnCancelled} && entry != k.Reaches()
    ensures Count(ms, k) == if s == k.Reaches() then 1 else 0
  {
    if ms != [] {
      SinkOnce(entry, ms[..|ms| - 1], ms[|ms| - 1].previous, k);
    }
  }

  // ---- Flawed trails ------------------------------------------------------------------------

  /** CANCELLED delivered before the BLOCKED that it follows. */
  predicate BlockedTail(entry: Status, ms: seq<Mark>, flaw: Flaw) {
    flaw.Doubled? && entry.Pending? && ms == [Mark(OnCancelled, Blocked), Mark(OnBlocked, Pending)]
  }

  predicate BrokenTail(entry: Status, ms: seq<Mark>, flaw: Flaw) {
    FlawedTail(entry, ms, flaw) || BlockedTail(entry, ms, flaw)
  }

  /** A legal chain to a status that is not a sink, and then the events of a flawed operation. */
  ghost predicate Broken(entry: Status, ms: seq<Mark>, flaw: Flaw) {
    exists front: seq<Mark>, x: Status, tail: seq<Mark> {:trigger Chain(entry, front, x), BrokenTail(x, tail, flaw)} ::
      ms == front + tail && Chain(entry, front, x) && x.CanBecome(Running) && BrokenTail(x, tail, flaw)
  }

  lemma {:induction false} FlawedSplits(entry: Status, ms: seq<Mark>, flaw: Flaw)
    returns (front: seq<Mark>, x: Status, tail: seq<Mark>)
    requires entry.CanBecome(Running) && FlawedTrail(entry, ms, flaw)
    ensures ms == front + tail && Chain(entry, front, x) && x.CanBecome(Running) && FlawedTail(x, tail, flaw)
    decreases |ms|
  {
    hide Chain, FlawedTail;
    if FlawedTail(entry, ms, flaw) {
      EmptyChain(entry);
      front, x, tail := [], entry, ms;
    } else {
      var rest;
      rest, x, tail := FlawedSplits(Failed, ms[2..], flaw);
      front := ms[..2] + rest;
      ChainPair(Mark(OnStarted, entry), Mark(OnFailed, Running));
      ChainTwice(entry, ms[..2], Failed, rest, x);
      assert ms == ms[..2] + ms[2..];
    }
  }

  /** A legal chain before a flawed trail leaves it broken in the same way. */
  lemma BrokenAfter(entry: Status, before: seq<Mark>, s: Status, ms: seq<Mark>, flaw: Flaw)
    requires Chain(entry, before, s) && s.CanBecome(Running) && (FlawedTrail(s, ms, flaw) || BlockedTail(s, ms, flaw))
    ensures Broken(entry, before + ms, flaw)
  {
    hide Chain, FlawedTail, FlawedTrail, BlockedTail;
    if BlockedTail(s, ms, flaw) {
      assert BrokenTail(s, ms, flaw);
    } else {
      var front, x, tail := FlawedSplits(s, ms, flaw);
      ChainTwice(entry, before, s, front, x);
      assert before + ms == (before + front) + tail;
      assert BrokenTail(x, tail, flaw);
    }
  }

  lemma BrokenCounts(entry: Status, ms: seq<Mark>, flaw: Flaw)
    requires Broken(entry, ms, flaw) && !entry.IsSink()
    ensures Count(ms, OnSucceeded) == 0 && Count(ms, OnCancelled) == if flaw.LosesEvent() then 0 else 1
  {
    hide Count, Chain;
    var front, x, tail :|
      ms == front + tail && Chain(entry, front, x) && x.CanBecome(Running) && BrokenTail(x, tail, flaw);
    SinkOnce(entry, front, x, OnSucceeded);
    SinkOnce(entry, front, x, OnCancelled);
    CountTwice(front, tail, OnSucceeded);
    CountTwice(front, tail, OnCancelled);
    CountShort(tail, OnSucceeded);
    CountShort(tail, OnCancelled);
  }

  /** The status that the last event reached. */
  function Reached(entry: Status, ms: seq<Mark>): Status {
    if ms == [] then entry else ms[|ms| - 1].kind.Reaches()
  }

  /** Each event's previous status is the one that the preceding event reached. */
  predicate Links(entry: Status, ms: seq<Mark>) {
    ms == [] || (ms[|ms| - 1].previous == Reached(entry, ms[..|ms| - 1]) && Links(entry, ms[..|ms| - 1]))
  }

  lemma {:induction false} LinksTwice(entry: Status, a: seq<Mark>, b: seq<Mark>)
    ensures Links(entry, a + b) <==> Links(entry, a) && Links(Reached(entry, a), b)
    decreases |b|
  {
    if b == [] {
      assert a + b == a;
    } else {
      var front := b[..|b| - 1];
      LinksTwice(entry, a, front);
      assert (a + b)[..|a + b| - 1] == a + front;
      assert Reached(entry, a + front) == Reached(Reached(entry, a), front);
    }
  }

  lemma {:induction false} ChainLinks(entry: Status, ms: seq<Mark>, s: Status)
    requires Chain(entry, ms, s)
    ensures Links(entry, ms) && s == Reached(entry, ms)
  {
    if ms != [] { ChainLinks(entry, ms[..|ms| - 1], ms[|ms| - 1].previous); }
  }

  lemma TailLinks(x: Status, tail: seq<Mark>, flaw: Flaw)
    requires BrokenTail(x, tail, flaw) && x.CanBecome(Running)
    ensures Links(x, tail) <==> !flaw.Doubled?
  {
    if |tail| > 0 { assert tail[..0] == []; }
    if |tail| > 1 {
      LinksTwice(x, tail[..1], tail[1..2]);
      assert tail[..2] == tail[..1] + tail[1..2] && tail[1..2][..0] == [] && tail[..1][..0] == [];
    }
  }

  lemma BrokenLinks(entry: Status, ms: seq<Mark>, flaw: Flaw)
    requires Broken(entry, ms, flaw)
    ensures Links(entry, ms) <==> !flaw.Doubled?
  {
    hide Chain, Links, BrokenTail;
    var front, x, tail :|
      ms == front + tail && Chain(entry, front, x) && x.CanBecome(Running) && BrokenTail(x, tail, flaw);
    ChainLinks(entry, front, x);
    LinksTwice(entry, front, tail);
    TailLinks(x, tail, flaw);
  }

  // ---- What every operation does ------------------------------------------------------------

  /** A task between operations, since it was in status `entry`, nothing having gone wrong. */
  ghost predicate AtRest(entry: Status, w: World) {
    var ms := Trail(w.bus.log, w.id);
    && !w.task.status.Running? && Chain(entry, ms, w.task.status)
    && (ms != [] ==> InSync(w))
    && (ms != [] && w.task.status in {Succeeded, Failed, Cancelled} ==> ResultOk(w.task))
  }

  /** The same, by the flaw in what has happened to the task. */
  ghost predicate Told(entry: Status, w: World, flaw: Flaw) {
    if flaw.Clean? then AtRest(entry, w)
    else
      && w.task.status.Cancelled? && !entry.IsSink() && Broken(entry, Trail(w.bus.log, w.id), flaw)
      && (ResultOk(w.task) <==> !flaw.SpoilsResult())
      && if !flaw.LeavesUnsaved() then InSync(w) else Trail(w.bus.log, w.id) != [] ==> Outdated(w)
  }

  /** What one operation adds to a task's trail. */
  ghost predicate Moves(w: World, w': World, ms: seq<Mark>, flaw: Flaw) {
    && Extends(w, w', ms) && !w'.task.status.Running?
    && if flaw.Clean? then
         && Chain(w.task.status, ms, w'.task.status)
         && (ms == [] ==> w' == w) && (ms != [] ==> InSync(w'))
         && (ms != [] && w'.task.status in {Succeeded, Failed, Cancelled} ==> ResultOk(w'.task))
       else
         && w.task.status.CanBecome(Running) && w'.task.status.Cancelled?
         && (FlawedTrail(w.task.status, ms, flaw) || BlockedTail(w.task.status, ms, flaw))
         && (ResultOk(w'.task) <==> !flaw.SpoilsResult())
         && if !flaw.LeavesUnsaved() then InSync(w') else w'.bus == w.bus || Outdated(w')
  }

  lemma CancelMoves(w: World) returns (ms: seq<Mark>)
    requires !w.task.status.Running?
    ensures Moves(w, WithCancel(w), ms, Clean)
  {
    hide Extends, InSync;
    CancelEffect(w);
    if w.task.status.IsSink() {
      ms := [];
      SameBus(w, w);
    } else {
      ms := [Mark(OnCancelled, w.task.status)];
      ChainOne(ms[0]);
    }
  }

  lemma BlockMoves(w: World, op: Op) returns (ms: seq<Mark>)
    requires !w.task.status.Running? && op.DoBlock?
    ensures Moves(w, MarkedBlocked(w, op.parent, op.at), ms, OpFlaw(w.task.status, op))
  {
    hide Extends, InSync, MarkedBlocked, WithCancel, FlawedTrail;
    BlockEffect(w, op.parent, op.at);
    if AfterCheck in op.at {
      ms := CancelMoves(w);
    } else if !w.task.status.Pending? {
      ms := [];
      SameBus(w, w);
    } else if HitBlock(op.at) {
      ms := [Mark(OnCancelled, Blocked), Mark(OnBlocked, Pending)];
    } else {
      ms := [Mark(OnBlocked, Pending)];
      ChainOne(ms[0]);
    }
  }

  /** A sink refuses every attempt. */
  lemma SinkExecutes(w: World, op: Op)
    requires w.task.status.IsSink() && op.DoExecute? && op.attempts >= 1
    ensures Effect(w, op) == w
  {
  }

  lemma AttemptMoves(w: World, h: Handler, at: set<Point>) returns (ms: seq<Mark>)
    requires w.task.status.CanBecome(Running)
    ensures Moves(w, Attempt(w, h, at).world, ms, AttemptFlaw(w.task.status, h, at))
  {
    hide Extends, InSync, Attempt, AttemptFlaw, AttemptStatus, Outdated, FlawedTail, Chain, ResultOk;
    ms := AttemptEffect(w, h, at);
    var e, flaw := Attempt(w, h, at), AttemptFlaw(w.task.status, h, at);
    if flaw.Clean? {
      MatchIsOk(e);
      AttemptChains(w.task.status, h, ms, e.world.task.status);
    }
  }

  lemma MatchIsOk(e: Ended)
    requires ResultMatches(e)
    ensures ResultOk(e.world.task)
  {
  }

  lemma RetryMoves(w: World, n: nat, scripts: nat -> Script) returns (ms: seq<Mark>)
    requires w.task.status.CanBecome(Running) && n >= 1
    ensures Moves(w, Retry(w, n, scripts, 0).world, ms, RetryFlaw(n, scripts, 0))
  {
    hide Extends, InSync, Retry, RetryFlaw, Outdated, FlawedTrail, Chain, ResultOk;
    ms := RetryTrace(w, n, scripts, 0);
    RetryKeepsContract(w, n, scripts, 0);
    if RetryFlaw(n, scripts, 0).Clean? {
      RetryChains(w.task.status, ms, n, Retry(w, n, scripts, 0).world.task.status);
    }
  }

  lemma EmptyChain(s: Status)
    ensures Chain(s, [], s)
  {
  }

  lemma OpMoves(w: World, op: Op) returns (ms: seq<Mark>)
    requires !w.task.status.Running? && (op.DoExecute? ==> op.attempts >= 1)
    ensures Moves(w, Effect(w, op), ms, OpFlaw(w.task.status, op))
  {
    hide Moves, WithCancel, MarkedBlocked, Attempt, Retry, AttemptFlaw, RetryFlaw;
    match op {
      case DoCancel(_) => ms := CancelMoves(w);
      case DoBlock(_, _, _) => ms := BlockMoves(w, op);
      case DoExecute(_, typ, handled, n, scripts) =>
        if w.task.status.IsSink() {
          SinkExecutes(w, op);
          ms := [];
          NothingMoves(w);
        } else if n == 1 || !handled {
          ms := AttemptMoves(w, if handled then Present(scripts(0).end) else Missing(typ), scripts(0).at);
        } else {
          ms := RetryMoves(w, n, scripts);
        }
    }
  }

  lemma NothingMoves(w: World)
    requires !w.task.status.Running?
    ensures Moves(w, w, [], Clean)
  {
    SameBus(w, w);
  }

  /** An operation on a task at rest. */
  lemma RestKept(entry: Status, w: World, w': World, ms: seq<Mark>, flaw: Flaw)
    requires AtRest(entry, w) && Moves(w, w', ms, flaw)
    ensures Told(entry, w', flaw)
  {
    hide Chain, FlawedTrail, BlockedTail, Broken, ResultOk;
    var before := Trail(w.bus.log, w.id);
    if flaw.Clean? {
      ChainTwice(entry, before, w.task.status, ms, w'.task.status);
      if ms == [] { assert before + ms == before; }
    } else {
      BrokenAfter(entry, before, w.task.status, ms, flaw);
      if entry.IsSink() { SinkStays(entry, before, w.task.status); }
      if flaw.LeavesUnsaved() && w'.bus == w.bus && before != [] { ChangedSinceSave(w, w'); }
    }
  }

  lemma {:induction false} SinkStays(entry: Status, ms: seq<Mark>, s: Status)
    requires Chain(entry, ms, s) && entry.IsSink()
    ensures s == entry
  {
    if ms != [] { SinkStays(entry, ms[..|ms| - 1], ms[|ms| - 1].previous); }
  }

  /** An operation on a task in which something has gone wrong changes nothing any more. */
  lemma ToldKept(entry: Status, w: World, flaw: Flaw, op: Op) returns (ms: seq<Mark>)
    requires Told(entry, w, flaw) && (op.DoExecute? ==> op.attempts >= 1)
    ensures Extends(w, Effect(w, op), ms) && !Effect(w, op).task.status.Running?
    ensures Told(entry, Effect(w, op), if flaw.Clean? then OpFlaw(w.task.status, op) else flaw)
  {
    hide Effect, AtRest, Moves, Broken, Outdated, OpFlaw;
    ToldIsNotRunning(entry, w, flaw);
    ms := OpMoves(w, op);
    MovesExtends(w, Effect(w, op), ms, OpFlaw(w.task.status, op));
    if flaw.Clean? {
      RestKept(entry, w, Effect(w, op), ms, OpFlaw(w.task.status, op));
    } else {
      SinkIgnores(w, op);
    }
  }

  lemma SinkIgnores(w: World, op: Op)
    requires w.task.status.IsSink() && (op.DoExecute? ==> op.attempts >= 1)
    ensures Effect(w, op) == w
  {
    if op.DoExecute? { SinkExecutes(w, op); }
  }

  lemma ToldIsNotRunning(entry: Status, w: World, flaw: Flaw)
    requires Told(entry, w, flaw)
    ensures !w.task.status.Running?
  {
  }

  lemma MovesExtends(w: World, w': World, ms: seq<Mark>, flaw: Flaw)
    requires Moves(w, w', ms, flaw)
    ensures Extends(w, w', ms) && !w'.task.status.Running?
  {
  }

  /** The other tasks do not notice. */
  lemma OthersTold(entry: Status, u: World, w: World, w': World, ms: seq<Mark>, flaw: Flaw)
    requires Told(entry, u, flaw) && u.bus == w.bus && u.id != w.id && Extends(w, w', ms)
    ensures Told(entry, u.(bus := w'.bus), flaw)
  {
    hide Chain, Broken, Trail, ResultOk;
    assert Trail(w'.bus.log, u.id) == Trail(w.bus.log, u.id);
    assert StoredCopy(w'.bus, u.id) == StoredCopy(w.bus, u.id);
  }

  ghost predicate NoneRunning(s: Sys) {
    forall t {:trigger s.tasks[t]} :: t in s.tasks ==> !s.tasks[t].status.Running?
  }

  lemma ApplyTells(entry: Status, s: Sys, op: Op, t: TaskId, flaw: Flaw)
    requires NoneRunning(s) && Applies(s, op) && t in s.tasks && Told(entry, WorldOf(s, t), flaw)
    ensures NoneRunning(Apply(s, op)) && Grows(s.bus, Apply(s, op).bus) && t in Apply(s, op).tasks
    ensures Told(entry, WorldOf(Apply(s, op), t),
                 if flaw.Clean? && op.task == t then OpFlaw(s.tasks[t].status, op) else flaw)
  {
    hide Told, Effect, Extends, Grows, OpFlaw, Moves;
    var w, s' := WorldOf(s, op.task), Apply(s, op);
    var w' := Effect(w, op);
    var ms;
    if op.task == t {
      ms := ToldKept(entry, w, flaw, op);
    } else {
      ms := OpMoves(w, op);
      MovesExtends(w, w', ms, OpFlaw(w.task.status, op));
      OthersTold(entry, WorldOf(s, t), w, w', ms, flaw);
    }
    ExtendsGrows(w, w', ms);
    assert WorldOf(s', op.task) == w';
    if op.task != t { assert WorldOf(s', t) == WorldOf(s, t).(bus := w'.bus); }
  }

  lemma ExtendsGrows(w: World, w': World, ms: seq<Mark>)
    requires Extends(w, w', ms)
    ensures w'.id == w.id && Grows(w.bus, w'.bus)
  {
  }

  lemma {:induction false} RunTells(entry: Status, s: Sys, ops: seq<Op>, s': Sys, t: TaskId, flaw: Flaw)
    requires NoneRunning(s) && Leads(s, ops, s') && t in s.tasks && Told(entry, WorldOf(s, t), flaw)
    ensures NoneRunning(s') && Grows(s.bus, s'.bus) && t in s'.tasks
    ensures Told(entry, WorldOf(s', t), if flaw.Clean? then HistoryFlaw(s, ops, t) else flaw)
    decreases |ops|
  {
    hide Told, Effect, Grows, OpFlaw, NoneRunning;
    if ops == [] {
      GrowsSame(s.bus);
    } else {
      ApplyTells(entry, s, ops[0], t, flaw);
      RunTells(entry, Apply(s, ops[0]), ops[1..], s', t,
               if flaw.Clean? && ops[0].task == t then OpFlaw(s.tasks[t].status, ops[0]) else flaw);
      GrowsTwice(s.bus, Apply(s, ops[0]).bus, s'.bus);
    }
  }

  lemma GrowsSame(b: Bus)
    ensures Grows(b, b)
  {
  }

  /** An executor that has emitted nothing yet, no attempt in flight. */
  ghost predicate Start(s: Sys) {
    s.bus.log == [] && s.bus.saves == 0 && s.bus.lost == [] && NoneRunning(s)
  }

  /** After any history, a task in whose operations no cancel was badly timed has an unbroken
      chain of legal events from its first status to its present one, a result that matches
      its status, and its live copy in a reliable store; a badly timed cancel breaks exactly
      what its flaw says. */
  lemma HistoryTells(s: Sys, ops: seq<Op>, s': Sys, t: TaskId)
    requires Start(s) && Leads(s, ops, s') && t in s.tasks
    ensures t in s'.tasks && Told(s.tasks[t].status, WorldOf(s', t), HistoryFlaw(s, ops, t))
    ensures Grows(s.bus, s'.bus)
  {
    hide Leads, Grows, HistoryFlaw;
    assert AtRest(s.tasks[t].status, WorldOf(s, t)) by { EmptyChain(s.tasks[t].status); }
    RunTells(s.tasks[t].status, s, ops, s', t, Clean);
  }

  /** After any history: exactly one SUCCEEDED event if and only if the task is SUCCEEDED; at
      most one CANCELLED event, and only if it is CANCELLED; and exactly one if and only if it
      is CANCELLED, unless a badly timed cancel of this task has lost the event. */
  lemma SinkEventsMatch(s: Sys, ops: seq<Op>, s': Sys, t: TaskId)
    requires Start(s) && Leads(s, ops, s') && t in s.tasks && !s.tasks[t].status.IsSink()
    ensures t in s'.tasks
    ensures var ms, now := Trail(s'.bus.log, t), s'.tasks[t].status;
            && Count(ms, OnSucceeded) == (if now.Succeeded? then 1 else 0)
            && Count(ms, OnCancelled) <= (if now.Cancelled? then 1 else 0)
            && (Count(ms, OnCancelled) == (if now.Cancelled? then 1 else 0)
                <==> !HistoryFlaw(s, ops, t).LosesEvent())
  {
    hide Leads, Count, Grows, HistoryFlaw, Broken, Chain;
    HistoryTells(s, ops, s', t);
    var entry, ms, now, flaw := s.tasks[t].status, Trail(s'.bus.log, t), s'.tasks[t].status, HistoryFlaw(s, ops, t);
    if flaw.Clean? {
      SinkOnce(entry, ms, now, OnSucceeded);
      SinkOnce(entry, ms, now, OnCancelled);
    } else {
      BrokenCounts(entry, ms, flaw);
    }
  }

  /** After any history the attached result says what the status says, if and only if no badly
      timed cancel of this task has spoilt it. */
  lemma ResultMatchesStatus(s: Sys, ops: seq<Op>, s': Sys, t: TaskId)
    requires Start(s) && Leads(s, ops, s') && t in s.tasks
    ensures t in s'.tasks
    ensures s'.tasks[t].status in {Succeeded, Failed, Cancelled}
            && (s'.tasks[t].status != s.tasks[t].status || Trail(s'.bus.log, t) != []) ==>
              (ResultOk(s'.tasks[t]) <==> !HistoryFlaw(s, ops, t).SpoilsResult())
  {
    hide Leads, Grows, HistoryFlaw, Broken;
    HistoryTells(s, ops, s', t);
  }

  /** After any history, with a reliable store, the stored copy of a task with events is the
      live task, if and only if no badly timed cancel of this task has left it unsaved. */
  lemma StoreAgreesAtRest(s: Sys, ops: seq<Op>, s': Sys, t: TaskId)
    requires Start(s) && Leads(s, ops, s') && Reliable(s.bus) && t in s.tasks && Trail(s'.bus.log, t) != []
    ensures t in s'.tasks
    ensures StoredCopy(s'.bus, t) == Some(s'.tasks[t]) <==> !HistoryFlaw(s, ops, t).LeavesUnsaved()
  {
    hide Leads, HistoryFlaw, Broken, Chain, Ledger;
    HistoryTells(s, ops, s', t);
  }

  /** After any history each event's previous status is the one that the task's preceding event
      reached, if and only if no badly timed cancel of this task has doubled its last event. */
  lemma PreviousStatusLinks(s: Sys, ops: seq<Op>, s': Sys, t: TaskId)
    requires Start(s) && Leads(s, ops, s') && t in s.tasks
    ensures Links(s.tasks[t].status, Trail(s'.bus.log, t)) <==> !HistoryFlaw(s, ops, t).Doubled?
  {
    hide Leads, Grows, HistoryFlaw, Broken, Chain, Links;
    HistoryTells(s, ops, s', t);
    if HistoryFlaw(s, ops, t).Clean? {
      ChainLinks(s.tasks[t].status, Trail(s'.bus.log, t), s'.tasks[t].status);
    } else {
      BrokenLinks(s.tasks[t].status, Trail(s'.bus.log, t), HistoryFlaw(s, ops, t));
    }
  }

  /** Whatever cancels arrive when: no task rests in RUNNING, and SUCCEEDED and CANCELLED
      tasks are never changed again, result and error included. */
  lemma {:induction false} SinksAreFinal(s: Sys, ops: seq<Op>, s': Sys, t: TaskId)
    requires Leads(s, ops, s') && t in s.tasks && !s.tasks[t].status.Running?
    ensures t in s'.tasks && !s'.tasks[t].status.Running?
    ensures s.tasks[t].status.IsSink() ==> s'.tasks[t] == s.tasks[t]
    decreases |ops|
  {
    hide Effect;
    if ops != [] {
      if ops[0].task == t { OpKeepsSinks(WorldOf(s, t), ops[0]); }
      SinksAreFinal(Apply(s, ops[0]), ops[1..], s', t);
    }
  }

  lemma OpKeepsSinks(w: World, op: Op)
    requires (op.DoExecute? ==> op.attempts >= 1) && !w.task.status.Running?
    ensures !Effect(w, op).task.status.Running?
    ensures w.task.status.IsSink() ==> Effect(w, op).task == w.task
  {
    hide Attempt, Retry;
    match op {
      case DoCancel(_) => CancelEffect(w);
      case DoBlock(_, parent, at) => BlockEffect(w, parent, at); CancelEffect(w);
      case DoExecute(_, typ, handled, n, scripts) =>
        if w.task.status.IsSink() { SinkExecutes(w, op); }
        else if n == 1 || !handled {
          AttemptKeepsContract(w, if handled then Present(scripts(0).end) else Missing(typ), scripts(0).at);
        } else { RetryKeepsContract(w, n, scripts, 0); }
    }
  }

  /** The log only grows, even when no task is looked at. */
  lemma {:induction false} LogGrows(s: Sys, ops: seq<Op>, s': Sys)
    requires NoneRunning(s) && Leads(s, ops, s')
    ensures Grows(s.bus, s'.bus)
    decreases |ops|
  {
    hide Effect, Grows;
    if ops == [] {
      GrowsSame(s.bus);
    } else {
      var w := WorldOf(s, ops[0].task);
      var ms := OpMoves(w, ops[0]);
      MovesExtends(w, Effect(w, ops[0]), ms, OpFlaw(w.task.status, ops[0]));
      ExtendsGrows(w, Effect(w, ops[0]), ms);
      LogGrows(Apply(s, ops[0]), ops[1..], s');
      GrowsTwice(s.bus, Apply(s, ops[0]).bus, s'.bus);
    }
  }

  /** A task as often as saves of its failed between two counts of saves. */
  function Repeated(t: TaskId, n: int): seq<TaskId> {
    if n <= 0 then [] else Repeated(t, n - 1) + [t]
  }

  /** The tasks whose saves fail in this history, in the order of the saves. */
  function Losses(s: Sys, ops: seq<Op>): seq<TaskId>
    decreases |ops|
  {
    if ops == [] || !Applies(s, ops[0]) then []
    else
      var s1 := Apply(s, ops[0]);
      Repeated(ops[0].task, FailedSaves(s.bus.fails, s1.bus.saves) - FailedSaves(s.bus.fails, s.bus.saves))
      + Losses(s1, ops[1..])
  }

  lemma {:induction false} AllRepeated(xs: seq<TaskId>, t: TaskId)
    requires forall i :: 0 <= i < |xs| ==> xs[i] == t
    ensures xs == Repeated(t, |xs|)
  {
    if xs != [] {
      AllRepeated(xs[..|xs| - 1], t);
      assert xs == xs[..|xs| - 1] + [xs[|xs| - 1]];
    }
  }

  lemma LostBy(w: World, w': World, ms: seq<Mark>)
    requires Extends(w, w', ms) && Ledger(w.bus) && w.bus.store.Some?
    ensures Ledger(w'.bus) && w'.bus.store.Some? && w'.bus.fails == w.bus.fails
    ensures w'.bus.lost == w.bus.lost + Repeated(w.id, FailedSaves(w.bus.fails, w'.bus.saves)
                                                       - FailedSaves(w.bus.fails, w.bus.saves))
  {
    var since := w'.bus.lost[|w.bus.lost|..];
    AllRepeated(since, w.id);
    assert w'.bus.lost == w.bus.lost + since;
  }

  lemma {:induction false} RunLoses(s: Sys, ops: seq<Op>, s': Sys)
    requires NoneRunning(s) && Leads(s, ops, s') && Ledger(s.bus) && s.bus.store.Some?
    ensures s'.bus.lost == s.bus.lost + Losses(s, ops)
    decreases |ops|
  {
    hide Effect, Grows, Ledger, Repeated, FailedSaves;
    if ops != [] {
      var w := WorldOf(s, ops[0].task);
      var ms := OpMoves(w, ops[0]);
      MovesExtends(w, Effect(w, ops[0]), ms, OpFlaw(w.task.status, ops[0]));
      LostBy(w, Effect(w, ops[0]), ms);
      RunLoses(Apply(s, ops[0]), ops[1..], s');
    }
  }

  /** After any history the tasks in `persistence_errors` are those whose saves have failed, in
      the order of the saves, and each failure was announced by an event of that task. */
  lemma FailuresAreReported(s: Sys, ops: seq<Op>, s': Sys)
    requires Start(s) && Leads(s, ops, s')
    ensures s'.bus.lost == Announced(s'.bus.log)
    ensures s'.bus.lost == if s.bus.store.Some? then Losses(s, ops) else []
    ensures |s'.bus.lost| == if s.bus.store.Some? then FailedSaves(s.bus.fails, s'.bus.saves) else 0
  {
    hide Leads, Trail, Losses, NoneRunning;
    LogGrows(s, ops, s');
    if s.bus.store.Some? { RunLoses(s, ops, s'); }
  }

  /** While every save fails, nothing reaches the store, whatever happens. */
  lemma FailingStoreStays(s: Sys, ops: seq<Op>, s': Sys)
    requires NoneRunning(s) && Leads(s, ops, s')
    requires forall n :: s.bus.saves <= n < s'.bus.saves ==> s.bus.fails(n)
    ensures s'.bus.store == s.bus.store
  {
    hide Leads, Trail;
    LogGrows(s, ops, s');
  }

  // ---- A failing store -------------------------------------------------------------------

  /** Two worlds that differ at most in their stores and persistence reports. */
  ghost predicate SameView(w: World, v: World) {
    w.id == v.id && w.task == v.task && Trail(w.bus.log, w.id) == Trail(v.bus.log, v.id)
  }

  ghost predicate SameEnd(e: Ended, f: Ended) {
    SameView(e.world, f.world) && e.outcome == f.outcome
  }

  lemma EmittedSame(w: World, v: World, kind: Kind, previous: Status, error: Option<Message>)
    requires SameView(w, v) && kind.IsLifecycle()
    ensures SameView(Emitted(w, kind, previous, error), Emitted(v, kind, previous, error))
  {
    EmittedEffect(w, kind, previous, error);
    EmittedEffect(v, kind, previous, error);
  }

  lemma EmittedAtSame(w: World, v: World, kind: Kind, previous: Status, error: Option<Message>, at: set<Point>,
                      p: Point)
    requires SameView(w, v) && kind.IsLifecycle() && (w.task.status.Running? ==> kind.OnStarted?)
    ensures SameView(EmittedAt(w, kind, previous, error, at, p), EmittedAt(v, kind, previous, error, at, p))
  {
    hide EmittedAt;
    EmittedAtEffect(w, kind, previous, error, at, p);
    EmittedAtEffect(v, kind, previous, error, at, p);
  }

  lemma CancelSame(w: World, v: World)
    requires SameView(w, v)
    ensures SameView(WithCancel(w), WithCancel(v))
  {
    hide Emitted;
    var w1, v1 := w.(task := w.task.(status := Cancelled)), v.(task := v.task.(status := Cancelled));
    EmittedSame(Attach(w1, CancelledResult(w.id, JustCancelled)), Attach(v1, CancelledResult(v.id, JustCancelled)),
                OnCancelled, w.task.status, Some(JustCancelled));
  }

  lemma TerminalizedSame(w: World, v: World, r: Result, previous: Status, kind: Kind, error: Option<Message>,
                         at: set<Point>)
    requires SameView(w, v) && kind.IsLifecycle() && !r.status.Running?
    ensures var t, u := Terminalized(w, r, previous, kind, error, at), Terminalized(v, r, previous, kind, error, at);
            t.Done? == u.Done? && SameView(t.world, u.world)
  {
    hide EmittedAt, WithCancel, Trail;
    CancelSame(w, v);
    var w0, v0 := CancelAt(w, at, AfterCheck), CancelAt(v, at, AfterCheck);
    CancelSame(Attach(w0, r), Attach(v0, r));
    var w1, v1 := CancelAt(Attach(w0, r), at, AfterAttach), CancelAt(Attach(v0, r), at, AfterAttach);
    if w1.task.status == r.status {
      EmittedAtSame(w1, v1, kind, previous, error, at, AfterSave);
    } else {
      CancelSame(w1, v1);
      var w2, v2 := CancelAt(w1, at, AfterCompare), CancelAt(v1, at, AfterCompare);
      if w2.task.status.CanBecome(r.status) {
        var w3 := w2.(task := Transitioned(w2.task, r.status, error));
        LastSame(w3, v2.(task := Transitioned(v2.task, r.status, error)), kind, previous, error, at);
      }
    }
  }

  lemma LastSame(w: World, v: World, kind: Kind, previous: Status, error: Option<Message>, at: set<Point>)
    requires SameView(w, v) && kind.IsLifecycle() && !w.task.status.Running?
    ensures SameView(EmittedAt(CancelAt(w, at, AfterTransition), kind, previous, error, at, AfterSave),
                     EmittedAt(CancelAt(v, at, AfterTransition), kind, previous, error, at, AfterSave))
  {
    hide EmittedAt, WithCancel, Trail;
    CancelSame(w, v);
    var w1, v1 := CancelAt(w, at, AfterTransition), CancelAt(v, at, AfterTransition);
    EmittedAtSame(w1, v1, kind, previous, error, at, AfterSave);
  }

  lemma BlockSame(w: World, v: World, parent: Option<TaskId>, at: set<Point>)
    requires SameView(w, v)
    ensures SameView(MarkedBlocked(w, parent, at), MarkedBlocked(v, parent, at))
  {
    hide MarkedBlocked, WithCancel, Trail;
    BlockEffect(w, parent, at);
    BlockEffect(v, parent, at);
    CancelSame(w, v);
  }

  lemma RaisedSame(w: World, v: World, f: Failure, at: set<Point>)
    requires SameView(w, v)
    ensures SameEnd(Raised(w, f, at), Raised(v, f, at))
  {
    hide Terminalized;
    TerminalizedSame(w, v, CancelledResult(w.id, f.message), Running, OnCancelled, Some(f.message), at);
    TerminalizedSame(w, v, FailureResult(w.id, f), Running, OnFailed, Some(f.message), at);
  }

  lemma AbortedSame(w: World, v: World, m: Message, at: set<Point>)
    requires SameView(w, v)
    ensures SameEnd(Aborted(w, m, at), Aborted(v, m, at))
  {
    hide Terminalized;
    TerminalizedSame(w, v, CancelledResult(w.id, m), Running, OnCancelled, Some(m), at);
  }

  lemma ReturnedSame(w: World, v: World, raw: Raw, at: set<Point>)
    requires SameView(w, v)
    ensures SameEnd(Returned(w, raw, at), Returned(v, raw, at))
  {
    hide Terminalized, Raised, Aborted;
    var r := FromRaw(w.id, raw);
    AbortedSame(w, v, WasCancelled(w.id), at);
    TerminalizedSame(w, v, r, Running, OnSucceeded, None, at);
    var t, u := Terminalized(w, r, Running, OnSucceeded, None, at), Terminalized(v, r, Running, OnSucceeded, None, at);
    RaisedSame(t.world, u.world, Plain(CannotTransition(t.world.task.status, Succeeded)), at);
  }

  lemma UnhandledSame(w: World, v: World, typ: TaskType, at: set<Point>)
    requires SameView(w, v)
    ensures SameEnd(Unhandled(w, typ, at), Unhandled(v, typ, at))
  {
    hide Terminalized;
    var s, m := w.task.status, NoHandler(typ);
    if s.CanBecome(Failed) {
      TerminalizedSame(w, v, FailureResult(w.id, Plain(m)), s, OnFailed, Some(m), at);
    } else if s.CanBecome(Running) {
      TerminalizedSame(w.(task := Transitioned(w.task, Running, None)), v.(task := Transitioned(v.task, Running, None)),
                       FailureResult(w.id, Plain(m)), s, OnFailed, Some(m), at);
    }
  }

  lemma HandledSame(w: World, v: World, end: HandlerEnd, at: set<Point>)
    requires SameView(w, v) && w.task.status.CanBecome(Running)
    ensures SameEnd(Handled(w, end, at), Handled(v, end, at))
  {
    hide Raised, Aborted, Returned, EmittedAt, WithCancel, Trail;
    var w0, v0 := w.(task := Transitioned(w.task, Running, None)), v.(task := Transitioned(v.task, Running, None));
    CancelSame(w0, v0);
    var w1, v1 := CancelAt(w0, at, AfterStart), CancelAt(v0, at, AfterStart);
    EmittedAtSame(w1, v1, OnStarted, w.task.status, None, at, AfterStartSave);
    CancelSame(EmittedAt(w1, OnStarted, w.task.status, None, at, AfterStartSave),
               EmittedAt(v1, OnStarted, w.task.status, None, at, AfterStartSave));
    match end {
      case Returns(raw) => ReturnedSame(Started(w, at), Started(v, at), raw, at);
      case Raises(f) => RaisedSame(Started(w, at), Started(v, at), f, at);
      case Aborts(m) => AbortedSame(Started(w, at), Started(v, at), m, at);
    }
  }

  /** A failing or missing store changes neither the task, nor its lifecycle events, nor the
      outcome of an attempt. */
  lemma AttemptSame(w: World, v: World, h: Handler, at: set<Point>)
    requires SameView(w, v)
    ensures SameEnd(Attempt(w, h, at), Attempt(v, h, at))
  {
    hide Unhandled, Handled, WithCancel;
    CancelSame(w, v);
    var w0, v0 := CancelAt(w, at, BeforeEntry), CancelAt(v, at, BeforeEntry);
    CancelSame(w0, v0);
    var w1, v1 := CancelAt(w0, at, AfterEntry), CancelAt(v0, at, AfterEntry);
    match h {
      case Missing(typ) => UnhandledSame(w1, v1, typ, at);
      case Present(end) => if w1.task.status.CanBecome(Running) { HandledSame(w1, v1, end, at); }
    }
  }

  lemma {:induction false} RetrySame(w: World, v: World, n: nat, scripts: nat -> Script, i: nat)
    requires SameView(w, v) && i < n
    ensures SameEnd(Retry(w, n, scripts, i), Retry(v, n, scripts, i))
    decreases n - i
  {
    hide Attempt, WithCancel;
    var at := scripts(i).at;
    AttemptSame(w, v, Present(scripts(i).end), at);
    var w1, v1 := Attempt(w, Present(scripts(i).end), at).world, Attempt(v, Present(scripts(i).end), at).world;
    CancelSame(w1, v1);
    var w2, v2 := CancelAt(w1, at, AfterAttempt), CancelAt(v1, at, AfterAttempt);
    CancelSame(w2, v2);
    var w3, v3 := CancelAt(w2, at, BetweenChecks), CancelAt(v2, at, BetweenChecks);
    CancelSame(w3, v3);
    if i + 1 < n { RetrySame(CancelAt(w3, at, InBackoff), CancelAt(v3, at, InBackoff), n, scripts, i + 1); }
  }

  /** The same for every operation. */
  lemma StoreFailuresDoNotMatter(w: World, v: World, op: Op)
    requires SameView(w, v) && (op.DoExecute? ==> op.attempts >= 1)
    ensures SameView(Effect(w, op), Effect(v, op))
    ensures op.DoExecute? ==> Execute(w, op.typ, op.handled, op.attempts, op.scripts).outcome
                              == Execute(v, op.typ, op.handled, op.attempts, op.scripts).outcome
  {
    hide Attempt, Retry, WithCancel, Emitted;
    match op {
      case DoCancel(_) => CancelSame(w, v);
      case DoBlock(_, parent, at) => BlockSame(w, v, parent, at);
      case DoExecute(_, typ, handled, n, scripts) =>
        AttemptSame(w, v, if handled then Present(scripts(0).end) else Missing(typ), scripts(0).at);
        if n > 1 && handled { RetrySame(w, v, n, scripts, 0); }
    }
  }
}
