/** A status column of the board: its title, and what a drop onto its empty area decides
    and writes. */
module TaskColumn {
  import opened Types
  import opened Lists
  import opened Firestore
  import opened TaskCard
  import Text

  const StatusTitles: map<string, string> :=
    map["todo" := "To Do", "in-progress" := "In Progress", "done" := "Done"]

  /** `statusTitles[status] || capitalised status`. */
  function ColumnTitle(status: string): string
  {
    if status in StatusTitles then StatusTitles[status] else Text.Capitalize(status)
  }

  /** The built-in columns have fixed titles; any other status is shown with its first
      character upper-cased and the rest as it is. */
  lemma ColumnTitles(status: string)
    ensures ColumnTitle("todo") == "To Do"
    ensures ColumnTitle("in-progress") == "In Progress"
    ensures ColumnTitle("done") == "Done"
    ensures status !in TaskStatuses ==>
      |ColumnTitle(status)| == |status| && (status != "" ==> ColumnTitle(status)[1..] == status[1..])
    ensures status !in TaskStatuses ==> ColumnTitle(status) == Text.Capitalize(status)
  {
    Text.CapitalizeTouchesOnlyTheHead(status);
  }

  /** `Math.max(...tasks.map(t => t.order))` over a non-empty column. */
  function MaxOrder(tasks: seq<Task>): (m: real)
    requires |tasks| > 0
    ensures exists i :: 0 <= i < |tasks| && tasks[i].order == m
    ensures forall i :: 0 <= i < |tasks| ==> tasks[i].order <= m
  {
    if |tasks| == 1 then tasks[0].order
    else
      var rest := MaxOrder(tasks[1..]);
      if tasks[0].order >= rest then tasks[0].order else rest
  }

  /** The orders of the column's tasks other than the dragged one. */
  function OtherOrders(tasks: seq<Task>, taskId: string): set<real>
  {
    set t | t in tasks && t.id != taskId :: t.order
  }

  /** The test `t.id !== taskId`. */
  function IsNot(taskId: string): Task -> bool
  {
    (t: Task) => t.id != taskId
  }

  /** The column's other tasks, in column order, carry exactly the other orders. */
  lemma OrdersOfOthers(tasks: seq<Task>, taskId: string)
    ensures forall i :: 0 <= i < |Filter(tasks, IsNot(taskId))| ==>
      Filter(tasks, IsNot(taskId))[i].order in OtherOrders(tasks, taskId)
    ensures forall x :: x in OtherOrders(tasks, taskId) ==>
      exists i :: 0 <= i < |Filter(tasks, IsNot(taskId))| && Filter(tasks, IsNot(taskId))[i].order == x
  {
    var others := Filter(tasks, IsNot(taskId));
    forall i | 0 <= i < |others| ensures others[i].order in OtherOrders(tasks, taskId) {
      assert others[i] in multiset(others);
      assert others[i] in tasks && others[i].id != taskId;
    }
    forall x | x in OtherOrders(tasks, taskId) ensures exists i :: 0 <= i < |others| && others[i].order == x {
      var t :| t in tasks && t.id != taskId && t.order == x;
      assert t in multiset(others);
      var i :| 0 <= i < |others| && others[i] == t;
    }
  }

  /** The order at the end of the column, leaving the dragged task out of the count:
      one more than the largest other order, or 0 when there is no other task. */
  function AppendOrder(tasks: seq<Task>, taskId: string): (o: real)
    ensures IsAppendOrder(o, OtherOrders(tasks, taskId))
  {
    var others := Filter(tasks, IsNot(taskId));
    OrdersOfOthers(tasks, taskId);
    if |others| > 0 then
      var m := MaxOrder(others);
      m + 1.0
    else
      assert OtherOrders(tasks, taskId) == {};
      0.0
  }

  /** `tasks.find(t => t.id === taskId && t.status === status)`: the first such task. */
  function FindTask(tasks: seq<Task>, taskId: string, status: string): (r: Option<Task>)
    ensures r.None? <==> forall i :: 0 <= i < |tasks| ==> !(tasks[i].id == taskId && tasks[i].status == status)
    ensures r.Some? ==> r.value.id == taskId && r.value.status == status
    ensures r.Some? ==> exists i :: (0 <= i < |tasks| && tasks[i] == r.value &&
      forall j :: 0 <= j < i ==> !(tasks[j].id == taskId && tasks[j].status == status))
  {
    if tasks == [] then None
    else if tasks[0].id == taskId && tasks[0].status == status then Some(tasks[0])
    else
      var r := FindTask(tasks[1..], taskId, status);
      FindPastHead(tasks, taskId, status, r);
      r
  }

  /** The step of `FindTask` past a head that does not match: the tail's answer is the answer. */
  lemma FindPastHead(tasks: seq<Task>, taskId: string, status: string, r: Option<Task>)
    requires tasks != [] && !(tasks[0].id == taskId && tasks[0].status == status)
    requires r.None? <==> forall i :: 0 <= i < |tasks[1..]| ==> !(tasks[1..][i].id == taskId && tasks[1..][i].status == status)
    requires r.Some? ==> exists i :: (0 <= i < |tasks[1..]| && tasks[1..][i] == r.value &&
      forall j :: 0 <= j < i ==> !(tasks[1..][j].id == taskId && tasks[1..][j].status == status))
    ensures r.None? <==> forall i :: 0 <= i < |tasks| ==> !(tasks[i].id == taskId && tasks[i].status == status)
    ensures r.Some? ==> exists i :: (0 <= i < |tasks| && tasks[i] == r.value &&
      forall j :: 0 <= j < i ==> !(tasks[j].id == taskId && tasks[j].status == status))
  {
    assert forall j :: 1 <= j < |tasks| ==> tasks[j] == tasks[1..][j - 1];
    if r.Some? {
      var i :| 0 <= i < |tasks[1..]| && tasks[1..][i] == r.value
        && forall j :: 0 <= j < i ==> !(tasks[1..][j].id == taskId && tasks[1..][j].status == status);
      assert tasks[i + 1] == r.value;
    }
  }

  /** `handleDrop` on the column of `status` in project `projectId` holding `tasks`: the single
      update it writes to the dragged task, or `None` when it writes nothing. */
  function DropOnColumn(p: DragPayload, status: string, projectId: string, tasks: seq<Task>): Option<TaskPatch>
  {
    if p.taskId == "" || p.projectId != projectId then None
    else
      var newOrder := AppendOrder(tasks, p.taskId);
      if p.currentStatus != status then
        Some(NoFields.(status := Some(status), order := Some(newOrder)))
      else
        match FindTask(tasks, p.taskId, p.currentStatus)
        case Some(dragged) =>
          if dragged.order != newOrder then Some(NoFields.(order := Some(newOrder))) else None
        case None => None
  }

  /** A payload with no task, or from another project, is ignored. */
  lemma ForeignDropIsIgnored(p: DragPayload, status: string, projectId: string, tasks: seq<Task>)
    requires p.taskId == "" || p.projectId != projectId
    ensures DropOnColumn(p, status, projectId, tasks) == None
  {
  }

  /** A drop coming from another column moves the task: it takes the column's status and an
      order strictly above every other task of the column (0 in an empty column), and the
      update carries nothing else. */
  lemma CrossColumnDropAppends(p: DragPayload, status: string, projectId: string, tasks: seq<Task>)
    requires p.taskId != "" && p.projectId == projectId && p.currentStatus != status
    ensures var r := DropOnColumn(p, status, projectId, tasks);
      && r.Some? && r.value.status == Some(status) && r.value.order.Some?
      && (forall t :: t in tasks && t.id != p.taskId ==> t.order < r.value.order.value)
      && ((forall t :: t in tasks ==> t.id == p.taskId) ==> r.value.order == Some(0.0))
    ensures var r := DropOnColumn(p, status, projectId, tasks);
      && r.Some? && r.value.title.None? && r.value.description.None? && r.value.priority.None?
      && r.value.dueDate.None? && r.value.assignedToId.None?
    ensures var r := DropOnColumn(p, status, projectId, tasks);
      r.Some? && r.value.order == Some(AppendOrder(tasks, p.taskId))
  {
    var o := AppendOrder(tasks, p.taskId);
    AppendOrderUnique(o, o, OtherOrders(tasks, p.taskId));
    forall t | t in tasks && t.id != p.taskId ensures t.order < o {
      assert t.order in OtherOrders(tasks, p.taskId);
    }
    if forall t :: t in tasks ==> t.id == p.taskId {
      assert OtherOrders(tasks, p.taskId) == {};
    }
  }

  /** A column showing exactly the tasks the store holds in its project and status: a task
      dropped in from another column gets the same order a task created in this status would. */
  lemma {:induction false} CrossColumnDropMatchesCreate(store: map<TaskKey, Task>, projectId: string, status: string,
                                                        tasks: seq<Task>, taskId: string)
    requires (set t | t in tasks) == set k | k in store && k.0 == projectId && store[k].status == status :: store[k]
    requires forall t :: t in tasks ==> t.id != taskId
    ensures AppendOrder(tasks, taskId) == AppendOrderOf(PartitionOrders(store, projectId, status))
  {
    var shown := set t | t in tasks;
    assert OtherOrders(tasks, taskId) == PartitionOrders(store, projectId, status) by {
      forall x | x in OtherOrders(tasks, taskId) ensures x in PartitionOrders(store, projectId, status) {
        var t :| t in tasks && t.id != taskId && t.order == x;
        assert t in shown;
        var k :| k in store && k.0 == projectId && store[k].status == status && store[k] == t;
      }
      forall x | x in PartitionOrders(store, projectId, status) ensures x in OtherOrders(tasks, taskId) {
        var k :| k in store && k.0 == projectId && store[k].status == status && store[k].order == x;
        assert store[k] in shown;
      }
    }
    AppendOrderUnique(AppendOrder(tasks, taskId), AppendOrderOf(PartitionOrders(store, projectId, status)),
                      PartitionOrders(store, projectId, status));
  }

  /** A column lists each task once: the store holds one document per task id. */
  predicate DistinctIds(tasks: seq<Task>)
  {
    forall i, j :: 0 <= i < j < |tasks| ==> tasks[i].id != tasks[j].id
  }

  /** A drop within the column never changes the status: it writes only an order, and only
      when the dragged task is in the column and not already at the end. */
  lemma SameColumnDropOnlyReorders(p: DragPayload, status: string, projectId: string, tasks: seq<Task>)
    requires DistinctIds(tasks)
    requires p.currentStatus == status
    ensures var r := DropOnColumn(p, status, projectId, tasks);
      r.Some? <==>
        && p.taskId != "" && p.projectId == projectId
        && exists t :: t in tasks && t.id == p.taskId && t.status == status && t.order != AppendOrder(tasks, p.taskId)
    ensures var r := DropOnColumn(p, status, projectId, tasks);
      r.Some? ==> r.value == NoFields.(order := Some(AppendOrder(tasks, p.taskId)))
  {
    if p.taskId != "" && p.projectId == projectId {
      var f := FindTask(tasks, p.taskId, status);
      if f.Some? {
        var i :| 0 <= i < |tasks| && tasks[i] == f.value;
        forall t | t in tasks && t.id == p.taskId && t.status == status ensures t == f.value {
          var j :| 0 <= j < |tasks| && tasks[j] == t;
          assert i == j;
        }
      }
    }
  }

  /** The column as the subscription delivers it after the store applied `u` to the dragged task. */
  function Redelivered(tasks: seq<Task>, taskId: string, u: TaskPatch, now: Timestamp): (r: seq<Task>)
    ensures |r| == |tasks|
    ensures forall i :: 0 <= i < |tasks| ==>
      r[i] == if tasks[i].id == taskId then ApplyPatch(tasks[i], u, now) else tasks[i]
  {
    seq(|tasks|, i requires 0 <= i < |tasks| =>
      if tasks[i].id == taskId then ApplyPatch(tasks[i], u, now) else tasks[i])
  }

  /** Redelivery leaves every other task as it was, so the orders the dragged task is placed
      after do not change. */
  lemma RedeliveryKeepsOtherOrders(tasks: seq<Task>, taskId: string, u: TaskPatch, now: Timestamp, again: seq<Task>)
    requires multiset(again) == multiset(Redelivered(tasks, taskId, u, now))
    ensures OtherOrders(again, taskId) == OtherOrders(tasks, taskId)
  {
    var moved := Redelivered(tasks, taskId, u, now);
    forall x | x in OtherOrders(again, taskId) ensures x in OtherOrders(tasks, taskId) {
      var t :| t in again && t.id != taskId && t.order == x;
      assert t in multiset(moved);
      var i :| 0 <= i < |moved| && moved[i] == t;
      assert tasks[i] == t;
    }
    forall x | x in OtherOrders(tasks, taskId) ensures x in OtherOrders(again, taskId) {
      var t :| t in tasks && t.id != taskId && t.order == x;
      var i :| 0 <= i < |tasks| && tasks[i] == t;
      assert moved[i] == t;
      assert t in multiset(again);
    }
  }

  /** After an order-only update every entry of the dragged task carries the new order, and
      one of them is still in the column's status. */
  lemma RedeliveryPlacesDragged(tasks: seq<Task>, taskId: string, status: string, o: real, now: Timestamp, again: seq<Task>)
    requires multiset(again) == multiset(Redelivered(tasks, taskId, NoFields.(order := Some(o)), now))
    requires exists t :: t in tasks && t.id == taskId && t.status == status
    ensures forall t :: t in again && t.id == taskId ==> t.order == o
    ensures exists t :: t in again && t.id == taskId && t.status == status
  {
    var moved := Redelivered(tasks, taskId, NoFields.(order := Some(o)), now);
    forall t | t in again && t.id == taskId ensures t.order == o {
      assert t in multiset(moved);
      var i :| 0 <= i < |moved| && moved[i] == t;
    }
    var t0 :| t0 in tasks && t0.id == taskId && t0.status == status;
    var i0 :| 0 <= i0 < |tasks| && tasks[i0] == t0;
    assert moved[i0] in multiset(again);
  }

  /** Dropping a task on its own column's empty area a second time writes nothing: the first
      drop already put it at the end, in whatever order the column is delivered again. */
  lemma SameColumnDropIsIdempotent(p: DragPayload, status: string, projectId: string,
                                   tasks: seq<Task>, now: Timestamp, again: seq<Task>)
    requires DistinctIds(tasks)
    requires p.currentStatus == status
    requires DropOnColumn(p, status, projectId, tasks).Some?
    requires multiset(again) == multiset(Redelivered(tasks, p.taskId, DropOnColumn(p, status, projectId, tasks).value, now))
    ensures DropOnColumn(p, status, projectId, again) == None
  {
    SameColumnDropOnlyReorders(p, status, projectId, tasks);
    var o := AppendOrder(tasks, p.taskId);
    RedeliveryKeepsOtherOrders(tasks, p.taskId, NoFields.(order := Some(o)), now, again);
    AppendOrderUnique(AppendOrder(again, p.taskId), o, OtherOrders(tasks, p.taskId));
    RedeliveryPlacesDragged(tasks, p.taskId, status, o, now, again);
  }

  /** `handleDrop` with its write: reads the payload, builds the update field by field, and
      issues it as one `updateTask` call, or issues nothing. */
  method HandleDrop(db: Database, dt: DataTransfer, status: string, projectId: string, tasks: seq<Task>, now: Timestamp)
    returns (written: bool)
    requires db.Valid()
    modifies db
    ensures db.Valid() && db.projects == old(db.projects)
    ensures written <==> DropOnColumn(ReadPayload(dt), status, projectId, tasks).Some?
    ensures !written ==> db.tasks == old(db.tasks)
    ensures written ==> db.tasks == UpdatedTasks(old(db.tasks), (projectId, ReadPayload(dt).taskId),
                                                 DropOnColumn(ReadPayload(dt), status, projectId, tasks).value, now)
  {
    var taskId := GetData(dt, "taskId");
    var sourceProjectId := GetData(dt, "projectId");
    var currentStatus := GetData(dt, "currentStatus");
    if taskId == "" || sourceProjectId != projectId {
      return false;
    }
    var draggedTaskOriginal := FindTask(tasks, taskId, currentStatus);
    var newOrder := AppendOrder(tasks, taskId);
    var updateData := NoFields;
    var needsUpdate := false;
    if currentStatus != status {
      updateData := updateData.(status := Some(status));
      updateData := updateData.(order := Some(newOrder));
      needsUpdate := true;
    } else if draggedTaskOriginal.Some? && draggedTaskOriginal.value.order != newOrder {
      updateData := updateData.(order := Some(newOrder));
      needsUpdate := true;
    }
    written := needsUpdate && updateData != NoFields;
    if written {
      // a rejected write (`ok` false) is reported to the user and changes nothing
      var ok := db.UpdateTask(projectId, taskId, updateData, now);
    }
  }

  /** Where on the column a drop lands: on a card, whose handler stops the event there, or on
      the column's empty area. */
  datatype DropSpot = OnCard(target: Task) | OnEmptyArea

  /** The one handler that runs for a drop, and what it decides. */
  function Drop(dt: DataTransfer, spot: DropSpot, status: string, projectId: string, tasks: seq<Task>): Option<TaskPatch>
  {
    match spot
    case OnCard(target) => DropOnCard(ReadPayload(dt), projectId, target)
    case OnEmptyArea => DropOnColumn(ReadPayload(dt), status, projectId, tasks)
  }

  /** A task from another column dropped onto one of this column's cards is not moved at all,
      although the same drop on the empty area would move it here. */
  lemma DropOnCardOfOtherColumnIsIgnored(dt: DataTransfer, target: Task, status: string, projectId: string, tasks: seq<Task>)
    requires target.status == status
    requires ReadPayload(dt).currentStatus != status
    ensures Drop(dt, OnCard(target), status, projectId, tasks) == None
    ensures ReadPayload(dt).taskId != "" && ReadPayload(dt).projectId == projectId ==>
      Drop(dt, OnEmptyArea, status, projectId, tasks).Some?
  {
  }
}
