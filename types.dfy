/** The entities of the task board: projects and tasks, as the document store holds them. */
module Types {

  datatype Option<+T> = None | Some(value: T)

  /** A server-assigned instant; the model only ever compares two of them. */
  datatype Timestamp = Timestamp(millis: int)

  datatype Project = Project(
    id: string,
    name: string,
    description: Option<string>,
    color: string,
    ownerId: string,
    memberIds: seq<string>,
    createdAt: Timestamp)

  /** `status` and `priority` are open: the built-in values below or any custom string.
      `order` places the task within its (project, status) partition; it is a real number
      because a task dropped onto a card gets a half-integer order. */
  datatype Task = Task(
    id: string,
    projectId: string,
    title: string,
    description: Option<string>,
    status: string,
    priority: string,
    dueDate: Option<Timestamp>,
    assignedToId: Option<string>,
    order: real,
    createdAt: Timestamp,
    updatedAt: Timestamp)

  /** The three built-in columns, in the order the board shows them. */
  const TaskStatuses: seq<string> := ["todo", "in-progress", "done"]
  const TaskPriorities: seq<string> := ["low", "medium", "high"]

  /** The built-in statuses are three different, non-empty strings: they start with
      different letters. */
  lemma BuiltInStatusesAreDistinct()
    ensures forall i, j :: 0 <= i < j < |TaskStatuses| ==> TaskStatuses[i] != TaskStatuses[j]
    ensures forall i :: 0 <= i < |TaskStatuses| ==> TaskStatuses[i] != ""
  {
    assert TaskStatuses[0][0] == 't' && TaskStatuses[1][0] == 'i' && TaskStatuses[2][0] == 'd';
  }

  /** The sort key of a task within its column. */
  function OrderOf(t: Task): real { t.order }

  /** The "append at the end" rule shared by task creation and by a drop on a column:
      `o` is one more than the largest order in `orders`, or 0 when `orders` is empty. */
  predicate IsAppendOrder(o: real, orders: set<real>)
  {
    if orders == {} then o == 0.0
    else o - 1.0 in orders && forall x :: x in orders ==> x <= o - 1.0
  }

  /** Some order always satisfies the rule: every finite set of reals has a largest element. */
  lemma {:induction false} AppendOrderExists(orders: set<real>)
    ensures exists o :: IsAppendOrder(o, orders)
    decreases |orders|
  {
    if orders == {} {
      assert IsAppendOrder(0.0, orders);
    } else {
      if forall y :: y !in orders { assert false; }
      var x :| x in orders;
      var rest := orders - {x};
      if rest == {} {
        assert orders == {x};
        assert IsAppendOrder(x + 1.0, orders);
      } else {
        AppendOrderExists(rest);
        var o :| IsAppendOrder(o, rest);
        var top := if x <= o - 1.0 then o - 1.0 else x;
        forall y | y in orders ensures y <= top {
          if y != x { assert y in rest; }
        }
        assert IsAppendOrder(top + 1.0, orders);
      }
    }
  }

  /** The rule determines the order uniquely, and it lies above every existing order. */
  lemma AppendOrderUnique(o1: real, o2: real, orders: set<real>)
    requires IsAppendOrder(o1, orders) && IsAppendOrder(o2, orders)
    ensures o1 == o2
    ensures forall x :: x in orders ==> x < o1
  {
  }

  /** The order the append rule gives for `orders`. */
  ghost function AppendOrderOf(orders: set<real>): (o: real)
    ensures IsAppendOrder(o, orders)
  {
    AppendOrderExists(orders);
    var o :| IsAppendOrder(o, orders);
    o
  }

  /** Appending to a partition and then appending again gives the next integer above:
      repeated appends to an empty partition yield 0, 1, 2, ... */
  lemma {:induction false} AppendAfterAppend(orders: set<real>)
    ensures AppendOrderOf({}) == 0.0
    ensures AppendOrderOf(orders + {AppendOrderOf(orders)}) == AppendOrderOf(orders) + 1.0
  {
    var o := AppendOrderOf(orders);
    var next := orders + {o};
    forall x | x in orders ensures x < o {
      AppendOrderUnique(o, o, orders);
    }
    assert IsAppendOrder(o + 1.0, next);
    AppendOrderUnique(o + 1.0, AppendOrderOf(next), next);
  }
}
