/** The task state machine of `src/ttasks/_task.py`: statuses, their classification
    and the allowed transitions. */
module Lifecycle {

  /** Task identities are opaque; `nat` gives them equality and the order that
      `ORDER BY` clauses use to break ties. */
  type TaskId = nat

  datatype Option<+T> = None | Some(value: T)

  datatype Status = Pending | Running | Succeeded | Failed | Cancelled | Blocked {

    /** The statuses a task in this status may move to. */
    function Allowed(): set<Status> {
      match this
      case Pending => {Running, Cancelled, Blocked, Failed}
      case Running => {Succeeded, Failed, Cancelled}
      case Failed => {Running, Cancelled}
      case Blocked => {Running, Cancelled}
      case Succeeded => {}
      case Cancelled => {}
    }

    predicate CanBecome(next: Status) {
      next in Allowed()
    }

    /** A sink is a status without outgoing transitions. */
    predicate IsSink()
      ensures IsSink() <==> Allowed() == {}
    {
      assert Running in Pending.Allowed() && Failed in Running.Allowed();
      assert Running in Failed.Allowed() && Running in Blocked.Allowed();
      this in {Succeeded, Cancelled}
    }

    /** A parent in a bad status blocks its ordinary dependents. */
    predicate IsBad() {
      this in {Failed, Cancelled, Blocked}
    }

    predicate IsTerminal() {
      this in {Succeeded, Failed, Cancelled, Blocked}
    }
  }

  /** The transitions by their target: nothing becomes PENDING again, only RUNNING becomes
      SUCCEEDED, only PENDING becomes BLOCKED, and everything but a sink can be cancelled. */
  lemma WhoBecomes(s: Status, next: Status)
    ensures s.CanBecome(next) <==>
              match next
              case Pending => false
              case Running => s in {Pending, Failed, Blocked}
              case Succeeded => s.Running?
              case Failed => s in {Pending, Running}
              case Cancelled => !s.IsSink()
              case Blocked => s.Pending?
  {
  }

  /** A terminal status is one in which no attempt is due or under way, and all of them but
      SUCCEEDED are bad for dependents. */
  lemma TerminalOrActive(s: Status)
    ensures s.IsTerminal() <==> !s.Pending? && !s.Running?
    ensures s.IsBad() <==> s.IsTerminal() && !s.Succeeded?
    ensures s.IsSink() ==> s.IsTerminal()
  {
  }
}
