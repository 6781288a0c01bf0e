/** A task card: what it writes into the drag payload, what a drop onto it decides, and
    how its priority badge is styled. */
module TaskCard {
  import opened Types
  import opened Firestore

  /** The drag event's `dataTransfer`: string entries by key. */
  type DataTransfer = map<string, string>

  /** `dataTransfer.getData(key)`: the empty string when the key was never set. */
  function GetData(dt: DataTransfer, key: string): string
  {
    if key in dt then dt[key] else ""
  }

  /** The three entries every drop handler reads back. */
  datatype DragPayload = DragPayload(taskId: string, projectId: string, currentStatus: string)

  /** `handleDragStart`: records the task's id, the board's project and the task's status. */
  function DragStart(task: Task, projectId: string): DataTransfer
  {
    map["taskId" := task.id, "projectId" := projectId, "currentStatus" := task.status]
  }

  /** What a drop handler reads from `dataTransfer`. */
  function ReadPayload(dt: DataTransfer): DragPayload
  {
    DragPayload(GetData(dt, "taskId"), GetData(dt, "projectId"), GetData(dt, "currentStatus"))
  }

  /** A drop handler reads back exactly what drag start wrote. */
  lemma DragPayloadRoundTrip(task: Task, projectId: string)
    ensures ReadPayload(DragStart(task, projectId)) == DragPayload(task.id, projectId, task.status)
  {
  }

  /** `handleDropOnCard`: a drop onto `target` within the same project and column, of another
      task, places the dragged task half a step before the target; anything else writes nothing. */
  function DropOnCard(p: DragPayload, projectId: string, target: Task): Option<TaskPatch>
  {
    if p.taskId != "" && p.projectId == projectId && p.taskId != target.id && p.currentStatus == target.status
    then Some(NoFields.(order := Some(target.order - 0.5)))
    else None
  }

  /** The write happens exactly when all four conditions of the guard hold, and it carries
      only an order, strictly below the target's (negative when the target's order is 0). */
  lemma DropOnCardDecision(p: DragPayload, projectId: string, target: Task)
    ensures DropOnCard(p, projectId, target).Some? <==>
      p.taskId != "" && p.projectId == projectId && p.taskId != target.id && p.currentStatus == target.status
    ensures DropOnCard(p, projectId, target).Some? ==>
      var u := DropOnCard(p, projectId, target).value;
      && u.order.Some? && u.order.value < target.order
      && u.order.value == target.order - 0.5
      && u.status.None? && u.title.None? && u.description.None? && u.priority.None?
      && u.dueDate.None? && u.assignedToId.None?
    ensures target.order == 0.0 && DropOnCard(p, projectId, target).Some? ==>
      DropOnCard(p, projectId, target).value.order == Some(-0.5)
  {
  }

  /** Dropping a card onto itself writes nothing. */
  lemma DropOnSelfIsIgnored(task: Task, projectId: string)
    ensures DropOnCard(ReadPayload(DragStart(task, projectId)), projectId, task) == None
  {
  }

  /** A column where the new order ties with the preceding card: orders 0, 0.5 and 1,
      and the last card dropped onto the middle one gets order 0, like the first. */
  lemma DropOnCardCanTie(projectId: string, a: Task, b: Task, c: Task)
    requires a.order == 0.0 && b.order == 0.5 && c.order == 1.0
    requires a.status == b.status == c.status && c.id != b.id && c.id != ""
    ensures DropOnCard(ReadPayload(DragStart(c, projectId)), projectId, b) == Some(NoFields.(order := Some(a.order)))
  {
  }

  /** `handleDropOnCard` with its write: reads the payload and, when the guard holds, issues
      one `updateTask` call carrying the new order. */
  method HandleDropOnCard(db: Database, dt: DataTransfer, projectId: string, target: Task, now: Timestamp)
    returns (written: bool)
    requires db.Valid()
    modifies db
    ensures db.Valid() && db.projects == old(db.projects)
    ensures written <==> DropOnCard(ReadPayload(dt), projectId, target).Some?
    ensures !written ==> db.tasks == old(db.tasks)
    ensures written ==> db.tasks == UpdatedTasks(old(db.tasks), (projectId, ReadPayload(dt).taskId),
                                                 DropOnCard(ReadPayload(dt), projectId, target).value, now)
  {
    var draggedTaskId := GetData(dt, "taskId");
    var sourceProjectId := GetData(dt, "projectId");
    var currentStatus := GetData(dt, "currentStatus");
    written := false;
    if draggedTaskId != "" && sourceProjectId == projectId && draggedTaskId != target.id && currentStatus == target.status {
      var newOrder := target.order - 0.5;
      // a rejected write (`ok` false) is reported to the user and changes nothing
      var ok := db.UpdateTask(projectId, draggedTaskId, NoFields.(order := Some(newOrder)), now);
      written := true;
    }
  }

  /** `handleDelete`: removes the card's task from the board's project and nothing else. */
  method HandleDelete(db: Database, projectId: string, task: Task)
    requires db.Valid()
    modifies db
    ensures db.Valid() && db.projects == old(db.projects)
    ensures db.tasks == old(db.tasks) - {(projectId, task.id)}
    ensures forall k :: k in db.tasks ==> db.tasks[k] == old(db.tasks)[k]
  {
    db.DeleteTask(projectId, task.id);
  }

  /** The badge variants the card can show. */
  datatype BadgeVariant = Default | Secondary | Destructive | Outline

  const PriorityVariants: map<string, BadgeVariant> :=
    map["low" := Secondary, "medium" := Default, "high" := Destructive]

  /** `priorityVariantMap[task.priority] || "outline"`. */
  function PriorityVariant(priority: string): BadgeVariant
  {
    if priority in PriorityVariants then PriorityVariants[priority] else Outline
  }

  /** The built-in priorities get three distinct variants; every other priority is outlined. */
  lemma PriorityVariantTable(priority: string)
    ensures PriorityVariant("low") == Secondary
    ensures PriorityVariant("medium") == Default
    ensures PriorityVariant("high") == Destructive
    ensures PriorityVariant(priority) == Outline <==> priority !in TaskPriorities
  {
  }
}
