/** The relational store: tables as maps from primary keys to rows, and what each operation
    of the task and graph collections does to them. */
module Tables {
  import opened Lifecycle
  import Execution
  import TaskGraphs

  type GraphId = nat

  /** Time stamps are opaque; text and back loses nothing. */
  type Instant = nat

  // ---- Live objects ------------------------------------------------------------------

  datatype TaskResult = TaskResult(
    taskId: TaskId, status: Status, startedAt: Instant, finishedAt: Instant, duration: real, output: string,
    error: Option<string>, returncode: Option<int>, raw: Option<string>, reason: Option<string>)

  datatype Task = Task(
    id: TaskId, title: string, description: string, payload: string, typ: Execution.TaskType, status: Status,
    error: Option<string>, timeout: Option<real>, blockedBy: Option<TaskId>, createdAt: Instant,
    result: Option<TaskResult>)
  {
    /** What `__post_init__` accepts. */
    predicate Constructible() {
      timeout.Some? ==> timeout.value > 0.0
    }

    predicate OwnsResult() {
      result.Some? ==> result.value.taskId == id
    }

    /** The snapshot a store can give back: everything but the raw value. */
    function Detached(): Task {
      if result.Some? then this.(result := Some(result.value.(raw := None))) else this
    }
  }

  datatype Graph = Graph(
    id: GraphId, title: string, createdAt: Instant, order: seq<TaskId>, tasks: map<TaskId, Task>,
    deps: map<TaskId, seq<TaskId>>, finals: set<TaskId>, optional: set<TaskId>)
  {
    /** What `add` maintains. */
    ghost predicate WellFormed() {
      && TaskGraphs.Distinct(order) && (forall t {:trigger t in order} :: t in order <==> t in deps)
      && tasks.Keys == deps.Keys && optional <= finals <= deps.Keys
      && (forall t {:trigger deps[t]} :: t in deps ==> TaskGraphs.Distinct(deps[t]))
      && forall t {:trigger tasks[t]} :: t in tasks ==> tasks[t].id == t
    }

    ghost predicate Closed() {
      forall t, d {:trigger d in deps[t]} :: t in deps && d in deps[t] ==> d in deps
    }

    /** Members as their constructor and the executor leave them. */
    ghost predicate Proper() {
      forall t {:trigger tasks[t]} :: t in tasks ==> tasks[t].Constructible() && tasks[t].OwnsResult()
    }

    /** `add` of a loaded task with loaded dependencies. */
    function Add(task: Task, after: seq<TaskId>, isFinal: bool, required: bool): Graph {
      this.(order := if task.id in deps then order else order + [task.id],
            tasks := tasks[task.id := task], deps := deps[task.id := TaskGraphs.Dedup(after)],
            finals := if isFinal then finals + {task.id} else finals - {task.id},
            optional := if isFinal && !required then optional + {task.id} else optional - {task.id})
    }
  }

  // ---- Rows --------------------------------------------------------------------------

  datatype TaskRow = TaskRow(
    title: string, description: string, payload: string, typ: string, status: string, error: Option<string>,
    timeout: Option<real>, blockedBy: Option<TaskId>, createdAt: Instant)

  datatype ResultRow = ResultRow(
    status: string, startedAt: Instant, finishedAt: Instant, duration: real, output: string,
    error: Option<string>, returncode: Option<int>, reason: Option<string>)

  datatype GraphRow = GraphRow(title: string, createdAt: Instant)
  datatype MemberKey = MemberKey(graph: GraphId, task: TaskId)
  datatype MemberRow = MemberRow(isFinal: bool, isOptional: bool, position: nat)
  datatype EdgeKey = EdgeKey(graph: GraphId, task: TaskId, dep: TaskId)

  datatype Database = Database(
    tasks: map<TaskId, TaskRow>, results: map<TaskId, ResultRow>, graphs: map<GraphId, GraphRow>,
    members: map<MemberKey, MemberRow>, edges: map<EdgeKey, nat>)

  const EMPTY := Database(map[], map[], map[], map[], map[])

  // ---- Conversions -------------------------------------------------------------------

  function StatusText(s: Status): string {
    match s
    case Pending => "pending"
    case Running => "running"
    case Succeeded => "succeeded"
    case Failed => "failed"
    case Cancelled => "cancelled"
    case Blocked => "blocked"
  }

  function ParseStatus(t: string): Option<Status> {
    if t == "pending" then Some(Pending)
    else if t == "running" then Some(Running)
    else if t == "succeeded" then Some(Succeeded)
    else if t == "failed" then Some(Failed)
    else if t == "cancelled" then Some(Cancelled)
    else if t == "blocked" then Some(Blocked)
    else None
  }

  function TypeText(t: Execution.TaskType): string {
    match t
    case Bash => "bash"
    case PowerShell => "powershell"
    case Prompt => "prompt"
    case Agent => "agent"
  }

  function ParseType(t: string): Option<Execution.TaskType> {
    if t == "bash" then Some(Execution.Bash)
    else if t == "powershell" then Some(Execution.PowerShell)
    else if t == "prompt" then Some(Execution.Prompt)
    else if t == "agent" then Some(Execution.Agent)
    else None
  }

  function RowOf(t: Task): TaskRow {
    TaskRow(t.title, t.description, t.payload, TypeText(t.typ), StatusText(t.status), t.error, t.timeout, t.blockedBy,
        t.createdAt)
  }

  function ResultRowOf(r: TaskResult): ResultRow {
    ResultRow(StatusText(r.status), r.startedAt, r.finishedAt, r.duration, r.output, r.error, r.returncode, r.reason)
  }

  function ResultFromRow(id: TaskId, r: ResultRow): Option<TaskResult> {
    match ParseStatus(r.status)
    case None => None
    case Some(s) => Some(TaskResult(id, s, r.startedAt, r.finishedAt, r.duration, r.output, r.error, r.returncode,
        None, r.reason))
  }

  /** None stands for the ValueError of an unknown enum text or of the constructor's check. */
  function TaskFromRow(id: TaskId, r: TaskRow, result: Option<TaskResult>): Option<Task> {
    match (ParseType(r.typ), ParseStatus(r.status))
    case (Some(typ), Some(s)) =>
      var t := Task(id, r.title, r.description, r.payload, typ, s, r.error, r.timeout, r.blockedBy, r.createdAt,
          result);
      if t.Constructible() then Some(t) else None
    case _ => None
  }

  // ---- Saving ------------------------------------------------------------------------

  datatype Problem = KeyError | ValueError | IntegrityError
  datatype Reply<+T> = Ok(value: T) | Fails(problem: Problem)

  /** `_upsert_task`: the result row is keyed by the result's own task id. */
  function Upsert(s: Database, task: Task): Reply<Database> {
    var s1 := s.(tasks := s.tasks[task.id := RowOf(task)]);
    match task.result
    case None => Ok(s1.(results := s1.results - {task.id}))
    case Some(r) =>
      if r.taskId in s1.tasks then Ok(s1.(results := s1.results[r.taskId := ResultRowOf(r)])) else Fails(IntegrityError)
  }

  /** The first `k` members upserted. */
  function UpsertFirst(s: Database, g: Graph, k: nat): Reply<Database>
    requires k <= |g.order| && forall t {:trigger t in g.order} :: t in g.order ==> t in g.tasks
  {
    if k == 0 then Ok(s)
    else
      match UpsertFirst(s, g, k - 1)
      case Fails(e) => Fails(e)
      case Ok(s1) => assert g.order[k - 1] in g.order; Upsert(s1, g.tasks[g.order[k - 1]])
  }

  function DropMembers(m: map<MemberKey, MemberRow>, g: GraphId): map<MemberKey, MemberRow> {
    map k | k in m && k.graph != g :: m[k]
  }

  function DropEdges(e: map<EdgeKey, nat>, g: GraphId): map<EdgeKey, nat> {
    map k | k in e && k.graph != g :: e[k]
  }

  function InsertMembers(m: map<MemberKey, MemberRow>, g: Graph, k: nat): map<MemberKey, MemberRow>
    requires k <= |g.order|
  {
    if k == 0 then m
    else
      var t := g.order[k - 1];
      InsertMembers(m, g, k - 1)[MemberKey(g.id, t) := MemberRow(t in g.finals, t in g.optional, k - 1)]
  }

  /** The first `j` dependencies of `t`. */
  function InsertDeps(e: map<EdgeKey, nat>, g: GraphId, t: TaskId, ds: seq<TaskId>, j: nat): map<EdgeKey, nat>
    requires j <= |ds|
  {
    if j == 0 then e else InsertDeps(e, g, t, ds, j - 1)[EdgeKey(g, t, ds[j - 1]) := j - 1]
  }

  /** The dependencies of the first `k` members. */
  function InsertEdges(e: map<EdgeKey, nat>, g: Graph, k: nat): map<EdgeKey, nat>
    requires k <= |g.order| && forall t {:trigger t in g.order} :: t in g.order ==> t in g.deps
  {
    if k == 0 then e
    else
      assert g.order[k - 1] in g.order;
      InsertDeps(InsertEdges(e, g, k - 1), g.id, g.order[k - 1], g.deps[g.order[k - 1]], |g.deps[g.order[k - 1]]|)
  }

  predicate AllRegistered(g: Graph) {
    forall i, d {:trigger d in g.deps[g.order[i]]} ::
      0 <= i < |g.order| && g.order[i] in g.deps && d in g.deps[g.order[i]] ==> d in g.deps
  }

  /** `graphs[g.id] = g`; a failure rolls everything back. */
  function SaveGraph(s: Database, g: Graph): Reply<Database>
    requires forall t {:trigger t in g.order} :: t in g.order ==> t in g.deps && t in g.tasks
  {
    match UpsertFirst(s, g, |g.order|)
    case Fails(e) => Fails(e)
    case Ok(s1) =>
      if !AllRegistered(g) then Fails(KeyError)
      else Ok(s1.(graphs := s1.graphs[g.id := GraphRow(g.title, g.createdAt)],
                  members := InsertMembers(DropMembers(s1.members, g.id), g, |g.order|),
                  edges := InsertEdges(DropEdges(s1.edges, g.id), g, |g.order|)))
  }

  // ---- Deleting ----------------------------------------------------------------------

  /** Deleting a task row cascades to its result, its memberships and its edges. */
  function DeleteTask(s: Database, id: TaskId): Reply<Database> {
    if id !in s.tasks then Fails(KeyError)
    else Ok(s.(tasks := s.tasks - {id}, results := s.results - {id},
               members := map k | k in s.members && k.task != id :: s.members[k],
               edges := map k | k in s.edges && k.task != id && k.dep != id :: s.edges[k]))
  }

  /** Deleting a graph row cascades to its members and edges. */
  function DeleteGraph(s: Database, g: GraphId): Reply<Database> {
    if g !in s.graphs then Fails(KeyError)
    else Ok(s.(graphs := s.graphs - {g}, members := DropMembers(s.members, g), edges := DropEdges(s.edges, g)))
  }

  // ---- Loading -----------------------------------------------------------------------

  function LoadTask(s: Database, id: TaskId): Reply<Task> {
    if id !in s.tasks then Fails(KeyError)
    else
      var result := if id in s.results then ResultFromRow(id, s.results[id]) else None;
      if id in s.results && result.None? then Fails(ValueError)
      else
        match TaskFromRow(id, s.tasks[id], result)
        case None => Fails(ValueError)
        case Some(t) => Ok(t)
  }

  /** `ORDER BY position, id`. */
  predicate Before(pos: map<TaskId, nat>, a: TaskId, b: TaskId)
    requires a in pos && b in pos
  {
    pos[a] < pos[b] || (pos[a] == pos[b] && a < b)
  }

  ghost function Least(ids: set<TaskId>, pos: map<TaskId, nat>): (m: TaskId)
    requires ids != {} && ids <= pos.Keys
    ensures m in ids && forall b :: b in ids && b != m ==> Before(pos, m, b)
  {
    var x :| x in ids;
    if ids == {x} then x
    else
      var m := Least(ids - {x}, pos);
      assert forall b :: b in ids ==> b == x || b in ids - {x};
      if Before(pos, x, m) then x else m
  }

  ghost function Sorted(ids: set<TaskId>, pos: map<TaskId, nat>): seq<TaskId>
    requires ids <= pos.Keys
  {
    if ids == {} then [] else var m := Least(ids, pos); [m] + Sorted(ids - {m}, pos)
  }

  function Positions(s: Database, g: GraphId): map<TaskId, nat> {
    map k | k in s.members && k.graph == g :: k.task := s.members[k].position
  }

  function DepPositions(s: Database, g: GraphId, t: TaskId): map<TaskId, nat> {
    map k | k in s.edges && k.graph == g && k.task == t :: k.dep := s.edges[k]
  }

  ghost function MemberOrder(s: Database, g: GraphId): seq<TaskId> {
    Sorted(Positions(s, g).Keys, Positions(s, g))
  }

  ghost function DepOrder(s: Database, g: GraphId, t: TaskId): seq<TaskId> {
    Sorted(DepPositions(s, g, t).Keys, DepPositions(s, g, t))
  }

  /** The first failure when the listed tasks are loaded, if any. */
  function LoadAll(s: Database, ids: seq<TaskId>): Option<Problem> {
    if ids == [] then None
    else
      match LoadAll(s, ids[..|ids| - 1])
      case Some(e) => Some(e)
      case None => match LoadTask(s, ids[|ids| - 1]) case Ok(_) => None case Fails(e) => Some(e)
  }

  /** The graph rebuilt from the first `k` member rows. */
  ghost function Rebuilt(s: Database, g: GraphId, order: seq<TaskId>, k: nat): Reply<Graph>
    requires g in s.graphs && k <= |order| && forall i :: 0 <= i < |order| ==> MemberKey(g, order[i]) in s.members
  {
    if k == 0 then Ok(Graph(g, s.graphs[g].title, s.graphs[g].createdAt, [], map[], map[], {}, {}))
    else
      match Rebuilt(s, g, order, k - 1)
      case Fails(e) => Fails(e)
      case Ok(graph) =>
        var t := order[k - 1];
        match LoadTask(s, t)
        case Fails(e) => Fails(e)
        case Ok(task) =>
          match LoadAll(s, DepOrder(s, g, t))
          case Some(e) => Fails(e)
          case None =>
            var row := s.members[MemberKey(g, t)];
            Ok(graph.Add(task, DepOrder(s, g, t), row.isFinal, !(row.isFinal && row.isOptional)))
  }

  /** Edges whose task is not a member have no list to go to. */
  predicate EdgesHaveMembers(s: Database, g: GraphId) {
    forall k {:trigger k in s.edges} :: k in s.edges && k.graph == g ==> MemberKey(g, k.task) in s.members
  }

  lemma LeastIs(ids: set<TaskId>, pos: map<TaskId, nat>, m: TaskId)
    requires ids <= pos.Keys && m in ids && forall y :: y in ids && y != m ==> Before(pos, m, y)
    ensures Least(ids, pos) == m
  {
    if Least(ids, pos) != m { assert false; }
  }

  lemma {:induction false} SortedHolds(ids: set<TaskId>, pos: map<TaskId, nat>)
    requires ids <= pos.Keys
    ensures forall t {:trigger t in Sorted(ids, pos)} :: t in Sorted(ids, pos) <==> t in ids
  {
    if ids != {} {
      var m := Least(ids, pos);
      SortedHolds(ids - {m}, pos);
    }
  }

  lemma {:induction false} SortedDistinct(ids: set<TaskId>, pos: map<TaskId, nat>)
    requires ids <= pos.Keys
    ensures TaskGraphs.Distinct(Sorted(ids, pos))
  {
    if ids != {} {
      var m := Least(ids, pos);
      SortedDistinct(ids - {m}, pos);
      SortedHolds(ids - {m}, pos);
      var rest, all := Sorted(ids - {m}, pos), Sorted(ids, pos);
      assert all == [m] + rest;
      forall i, j | 0 <= i < j < |all| ensures all[i] != all[j] {
        assert all[j] == rest[j - 1] && rest[j - 1] in rest;
        if i > 0 { assert all[i] == rest[i - 1]; }
      }
    }
  }

  /** Rows come by position, and by identity where positions are equal. */
  lemma {:induction false} SortedByPosition(ids: set<TaskId>, pos: map<TaskId, nat>, i: nat, j: nat)
    requires ids <= pos.Keys && i < j < |Sorted(ids, pos)|
    ensures var a, b := Sorted(ids, pos)[i], Sorted(ids, pos)[j];
            a in ids && b in ids && pos[a] <= pos[b] && (pos[a] == pos[b] ==> a < b)
  {
    var m := Least(ids, pos);
    var rest := Sorted(ids - {m}, pos);
    SortedHolds(ids - {m}, pos);
    assert Sorted(ids, pos)[j] == rest[j - 1] && rest[j - 1] in rest;
    if i > 0 { SortedByPosition(ids - {m}, pos, i - 1, j - 1); }
  }

  lemma MemberOrderHolds(s: Database, g: GraphId)
    ensures forall t {:trigger t in MemberOrder(s, g)} :: t in MemberOrder(s, g) <==> MemberKey(g, t) in s.members
  {
    SortedHolds(Positions(s, g).Keys, Positions(s, g));
    forall t ensures t in Positions(s, g) <==> MemberKey(g, t) in s.members {
      if t in Positions(s, g) { var k :| k in s.members && k.graph == g && k.task == t; assert k == MemberKey(g, t); }
      if MemberKey(g, t) in s.members { assert MemberKey(g, t).task == t; }
    }
  }

  /** `graphs[g]`. */
  ghost function LoadGraph(s: Database, g: GraphId): Reply<Graph> {
    if g !in s.graphs then Fails(KeyError)
    else if !EdgesHaveMembers(s, g) then Fails(KeyError)
    else
      MemberOrderHolds(s, g);
      var order := MemberOrder(s, g);
      assert forall i :: 0 <= i < |order| ==> order[i] in order;
      Rebuilt(s, g, order, |order|)
  }
}
