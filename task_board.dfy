/** The board of a project: one column per built-in status, each showing that status's
    tasks in ascending order. */
module TaskBoard {
  import opened Types
  import opened Lists
  import opened Firestore

  /** `tasksByStatus(status)`: the tasks in `status`, sorted by order, ties kept in the
      order the subscription delivered them. */
  function TasksByStatus(tasks: seq<Task>, status: string): (r: seq<Task>)
    ensures SortedBy(r, OrderOf)
    ensures forall t :: t in r ==> t.status == status
    ensures forall t :: multiset(r)[t] == if t.status == status then multiset(tasks)[t] else 0
  {
    var shown := Filter(tasks, (t: Task) => t.status == status);
    var r := SortBy(shown, OrderOf);
    assert forall t :: t in r ==> t in multiset(shown);
    r
  }

  /** A rendered column: the status it stands for and the cards it shows. */
  datatype Column = Column(status: string, tasks: seq<Task>)

  /** `TASK_STATUSES.map(status => <TaskColumn status tasks={tasksByStatus(status)} />)`. */
  function Board(tasks: seq<Task>): (b: seq<Column>)
    ensures |b| == |TaskStatuses|
    ensures forall i :: 0 <= i < |b| ==> b[i].status == TaskStatuses[i]
    ensures forall i :: 0 <= i < |b| ==> b[i].tasks == TasksByStatus(tasks, TaskStatuses[i])
  {
    seq(|TaskStatuses|, i requires 0 <= i < |TaskStatuses| =>
      Column(TaskStatuses[i], TasksByStatus(tasks, TaskStatuses[i])))
  }

  /** The columns run To Do, In Progress, Done, left to right. */
  lemma BoardColumnOrder(tasks: seq<Task>)
    ensures |Board(tasks)| == 3
    ensures Board(tasks)[0].status == "todo"
    ensures Board(tasks)[1].status == "in-progress"
    ensures Board(tasks)[2].status == "done"
  {
  }

  /** What one column shows of `t`: nothing unless `t` has the column's status, and then every
      delivered copy. */
  lemma ColumnShows(tasks: seq<Task>, status: string, t: Task)
    ensures t in TasksByStatus(tasks, status) ==> t.status == status
    ensures multiset(TasksByStatus(tasks, status))[t] == if t.status == status then multiset(tasks)[t] else 0
  {
  }

  /** A task is shown only in the column of its own status, and there as many times as it was
      delivered. The built-in statuses are distinct, so a task with one of them is in exactly
      one column, and a task with any other status is in none. */
  lemma BoardShowsEachTaskOnce(tasks: seq<Task>, t: Task)
    ensures forall j :: 0 <= j < |Board(tasks)| && t in Board(tasks)[j].tasks ==> TaskStatuses[j] == t.status
    ensures forall j :: 0 <= j < |Board(tasks)| && TaskStatuses[j] == t.status ==>
      multiset(Board(tasks)[j].tasks)[t] == multiset(tasks)[t]
    ensures forall i, j :: 0 <= i < j < |TaskStatuses| ==> TaskStatuses[i] != TaskStatuses[j]
  {
    BuiltInStatusesAreDistinct();
    var b := Board(tasks);
    forall j | 0 <= j < |b|
      ensures t in b[j].tasks ==> TaskStatuses[j] == t.status
      ensures TaskStatuses[j] == t.status ==> multiset(b[j].tasks)[t] == multiset(tasks)[t]
    {
      ColumnShows(tasks, TaskStatuses[j], t);
    }
  }

  /** The listing arrives sorted by order, so each column is simply the listing's tasks in
      that status, in the listing's own order. */
  lemma {:induction false} ColumnOfSortedListing(tasks: seq<Task>, status: string)
    requires SortedBy(tasks, OrderOf)
    ensures TasksByStatus(tasks, status) == Filter(tasks, (t: Task) => t.status == status)
  {
    var keep := (t: Task) => t.status == status;
    FilterKeepsSorted(tasks, keep, OrderOf);
    SortBySortedIsIdentity(Filter(tasks, keep), OrderOf);
  }

  /** A task created with an empty status is ordered within the "todo" partition but keeps
      the empty status, so the board shows it in no column. */
  lemma EmptyStatusTaskIsHidden(id: string, projectId: string, data: NewTaskData, order: real, now: Timestamp,
                                tasks: seq<Task>)
    requires data.status == ""
    ensures PartitionStatus(data.status) == "todo"
    ensures forall j :: 0 <= j < |Board(tasks)| ==> NewTask(id, projectId, data, order, now) !in Board(tasks)[j].tasks
  {
    var t := NewTask(id, projectId, data, order, now);
    var b := Board(tasks);
    BuiltInStatusesAreDistinct();
    forall j | 0 <= j < |b| ensures t !in b[j].tasks {
      ColumnShows(tasks, TaskStatuses[j], t);
    }
  }
}
