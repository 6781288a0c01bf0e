/** The document store behind the board: projects at `projects/{id}`, tasks at
    `projects/{projectId}/tasks/{taskId}`, and the request functions over them. */
module Firestore {
  import opened Types
  import opened Lists

  /** `UpdateTaskData`: the fields an update carries; `None` means "not in the payload". */
  datatype TaskPatch = TaskPatch(
    title: Option<string>,
    description: Option<string>,
    status: Option<string>,
    priority: Option<string>,
    dueDate: Option<Timestamp>,
    assignedToId: Option<string>,
    order: Option<real>)

  const NoFields: TaskPatch := TaskPatch(None, None, None, None, None, None, None)

  function Merge<T>(supplied: Option<T>, current: T): T
  {
    if supplied.Some? then supplied.value else current
  }

  function MergeOptional<T>(supplied: Option<T>, current: Option<T>): Option<T>
  {
    if supplied.Some? then supplied else current
  }

  /** The task after `updateDoc` has merged `p` into it; the server refreshes `updatedAt`. */
  function ApplyPatch(t: Task, p: TaskPatch, now: Timestamp): Task
  {
    t.(title := Merge(p.title, t.title),
       description := MergeOptional(p.description, t.description),
       status := Merge(p.status, t.status),
       priority := Merge(p.priority, t.priority),
       dueDate := MergeOptional(p.dueDate, t.dueDate),
       assignedToId := MergeOptional(p.assignedToId, t.assignedToId),
       order := Merge(p.order, t.order),
       updatedAt := now)
  }

  /** An update changes exactly the fields it supplies, plus `updatedAt`; identity and creation time never change. */
  lemma PatchChangesOnlySuppliedFields(t: Task, p: TaskPatch, now: Timestamp)
    ensures var r := ApplyPatch(t, p, now);
      && r.id == t.id && r.projectId == t.projectId && r.createdAt == t.createdAt
      && r.updatedAt == now
      && r.title == (if p.title.Some? then p.title.value else t.title)
      && r.description == (if p.description.Some? then p.description else t.description)
      && r.status == (if p.status.Some? then p.status.value else t.status)
      && r.priority == (if p.priority.Some? then p.priority.value else t.priority)
      && r.dueDate == (if p.dueDate.Some? then p.dueDate else t.dueDate)
      && r.assignedToId == (if p.assignedToId.Some? then p.assignedToId else t.assignedToId)
      && r.order == (if p.order.Some? then p.order.value else t.order)
  {
  }

  /** Writing the same update twice leaves the task as writing it once. */
  lemma ApplyPatchIdempotent(t: Task, p: TaskPatch, now: Timestamp)
    ensures ApplyPatch(ApplyPatch(t, p, now), p, now) == ApplyPatch(t, p, now)
  {
  }

  /** A task document's path below the database: (projectId, taskId). */
  type TaskKey = (string, string)

  /** `CreateTaskData`: a task without id, projectId, order and timestamps. */
  datatype NewTaskData = NewTaskData(
    title: string,
    description: Option<string>,
    status: string,
    priority: string,
    dueDate: Option<Timestamp>,
    assignedToId: Option<string>)

  /** `CreateProjectData`: a project without id, owner, members and creation time. */
  datatype NewProjectData = NewProjectData(name: string, description: Option<string>, color: string)

  /** The partition `createTask` appends to: `taskData.status || "todo"`. */
  function PartitionStatus(status: string): string
  {
    if status == "" then "todo" else status
  }

  /** The orders of the tasks of one project that have one status. */
  function PartitionOrders(tasks: map<TaskKey, Task>, projectId: string, status: string): set<real>
  {
    set k | k in tasks && k.0 == projectId && tasks[k].status == status :: tasks[k].order
  }

  /** The task documents of one project that have one status. */
  function Partition(tasks: map<TaskKey, Task>, projectId: string, status: string): set<Task>
  {
    set k | k in tasks && k.0 == projectId && tasks[k].status == status :: tasks[k]
  }

  /** A listing of a partition carries exactly the partition's orders. */
  lemma OrdersOfListing(tasks: map<TaskKey, Task>, projectId: string, status: string, docs: seq<Task>)
    requires multiset(docs) == multiset(Partition(tasks, projectId, status))
    ensures forall i :: 0 <= i < |docs| ==> docs[i].order in PartitionOrders(tasks, projectId, status)
    ensures forall x :: x in PartitionOrders(tasks, projectId, status) ==>
      exists i :: 0 <= i < |docs| && docs[i].order == x
  {
    forall x | x in PartitionOrders(tasks, projectId, status) ensures exists i :: 0 <= i < |docs| && docs[i].order == x {
      var k :| k in tasks && k.0 == projectId && tasks[k].status == status && tasks[k].order == x;
      assert tasks[k] in multiset(docs);
    }
    forall i | 0 <= i < |docs| ensures docs[i].order in PartitionOrders(tasks, projectId, status) {
      assert docs[i] in multiset(docs);
    }
  }

  /** Reading a partition by descending order, the first task's order plus one (or 0 when
      there is none) is the partition's append order. */
  lemma AppendAfterDescendingListing(tasks: map<TaskKey, Task>, projectId: string, status: string, docs: seq<Task>)
    requires multiset(docs) == multiset(Partition(tasks, projectId, status))
    requires SortedBy(docs, HighestOrderFirst)
    ensures |docs| > 0 ==> IsAppendOrder(docs[0].order + 1.0, PartitionOrders(tasks, projectId, status))
    ensures |docs| == 0 ==> IsAppendOrder(0.0, PartitionOrders(tasks, projectId, status))
  {
    OrdersOfListing(tasks, projectId, status, docs);
    if |docs| > 0 {
      forall j | 0 <= j < |docs| ensures docs[j].order <= docs[0].order {
        assert HighestOrderFirst(docs[0]) <= HighestOrderFirst(docs[j]);
      }
    } else {
      assert PartitionOrders(tasks, projectId, status) == {};
    }
  }

  /** The tasks of one project: the subcollection `projects/{projectId}/tasks`. */
  function ProjectTasks(tasks: map<TaskKey, Task>, projectId: string): set<Task>
  {
    set k | k in tasks && k.0 == projectId :: tasks[k]
  }

  /** The record `createTask` writes: the given fields, the project, the order and two server timestamps. */
  function NewTask(id: string, projectId: string, data: NewTaskData, order: real, now: Timestamp): Task
  {
    Task(id, projectId, data.title, data.description, data.status, data.priority,
         data.dueDate, data.assignedToId, order, now, now)
  }

  /** The record `createProject` writes: the owner is the one and only member. */
  function NewProject(id: string, data: NewProjectData, ownerId: string, now: Timestamp): (p: Project)
    ensures p.ownerId == ownerId && p.memberIds == [ownerId]
    ensures p.ownerId in p.memberIds
  {
    Project(id, data.name, data.description, data.color, ownerId, [ownerId], now)
  }

  /** The task map after `updateDoc`: the named document merged, or nothing when it does not exist. */
  function UpdatedTasks(tasks: map<TaskKey, Task>, key: TaskKey, p: TaskPatch, now: Timestamp): map<TaskKey, Task>
  {
    if key in tasks then tasks[key := ApplyPatch(tasks[key], p, now)] else tasks
  }

  /** Sort key of `orderBy("createdAt", "desc")`. */
  function NewestFirst(p: Project): real { -(p.createdAt.millis as real) }

  /** Sort key of `orderBy("order", "desc")`. */
  function HighestOrderFirst(t: Task): real { -t.order }

  /** The documents of `m` a query's `where` clauses keep, in whatever order the store yields them. */
  method CollectWhere<K, V>(m: map<K, V>, keep: (K, V) -> bool) returns (s: seq<V>)
    requires forall k1, k2 :: k1 in m && k2 in m && m[k1] == m[k2] ==> k1 == k2
    ensures multiset(s) == multiset(set k | k in m && keep(k, m[k]) :: m[k])
  {
    s := [];
    var rest := m.Keys;
    while rest != {}
      invariant rest <= m.Keys
      invariant multiset(s) == multiset(set k | k in m && k !in rest && keep(k, m[k]) :: m[k])
      decreases rest
    {
      if forall k :: k !in rest { assert false; }
      var k :| k in rest;
      ghost var before := set k' | k' in m && k' !in rest && keep(k', m[k']) :: m[k'];
      rest := rest - {k};
      ghost var after := set k' | k' in m && k' !in rest && keep(k', m[k']) :: m[k'];
      if keep(k, m[k]) {
        assert m[k] !in before;
        assert after == before + {m[k]};
        s := s + [m[k]];
      } else {
        assert after == before;
      }
    }
  }

  class Database {
    var projects: map<string, Project>
    var tasks: map<TaskKey, Task>

    /** Every document carries the identifiers of its own path. */
    ghost predicate Valid()
      reads this
    {
      && (forall id :: id in projects ==> projects[id].id == id)
      && (forall k :: k in tasks ==> tasks[k].projectId == k.0 && tasks[k].id == k.1)
    }

    constructor ()
      ensures Valid() && projects == map[] && tasks == map[]
    {
      projects := map[];
      tasks := map[];
    }

    /** `createProject`: a new document whose owner is its only member. */
    method CreateProject(data: NewProjectData, ownerId: string, newId: string, now: Timestamp)
      requires Valid() && newId !in projects
      modifies this
      ensures Valid()
      ensures projects == old(projects)[newId := NewProject(newId, data, ownerId, now)]
      ensures tasks == old(tasks)
    {
      projects := projects[newId := NewProject(newId, data, ownerId, now)];
    }

    /** `getProjectById`: the document, or null when there is none. */
    method GetProjectById(projectId: string) returns (r: Option<Project>)
      requires Valid()
      ensures r.Some? <==> projectId in projects
      ensures r.Some? ==> r.value == projects[projectId] && r.value.id == projectId
    {
      r := if projectId in projects then Some(projects[projectId]) else None;
    }

    /** One delivery of `getProjectsForUser`: the projects listing the user as a member, newest
        first; an empty list when the subscription reports an error. */
    method ProjectsForUser(userId: string, failed: bool) returns (r: seq<Project>)
      requires Valid()
      ensures failed ==> r == []
      ensures !failed ==> multiset(r) == multiset(set id | id in projects && userId in projects[id].memberIds :: projects[id])
      ensures forall p :: p in r ==> userId in p.memberIds
      ensures forall i, j :: 0 <= i < j < |r| ==> r[i].createdAt.millis >= r[j].createdAt.millis
    {
      if failed {
        return [];
      }
      var visible := CollectWhere(projects, (id: string, p: Project) => userId in p.memberIds);
      r := SortBy(visible, NewestFirst);
      forall p | p in r ensures userId in p.memberIds {
        assert p in multiset(r);
      }
      forall i, j | 0 <= i < j < |r| ensures r[i].createdAt.millis >= r[j].createdAt.millis {
        assert NewestFirst(r[i]) <= NewestFirst(r[j]);
      }
    }

    /** One delivery of `getTasksForProject`: the project's tasks by ascending order; an empty
        list when the subscription reports an error. */
    method TasksForProject(projectId: string, failed: bool) returns (r: seq<Task>)
      requires Valid()
      ensures failed ==> r == []
      ensures !failed ==> multiset(r) == multiset(ProjectTasks(tasks, projectId))
      ensures SortedBy(r, OrderOf)
    {
      if failed {
        return [];
      }
      var docs := CollectWhere(tasks, (k: TaskKey, t: Task) => k.0 == projectId);
      r := SortBy(docs, OrderOf);
    }

    /** `getTaskById`: the document, or null when there is none. */
    method GetTaskById(projectId: string, taskId: string) returns (r: Option<Task>)
      requires Valid()
      ensures r.Some? <==> (projectId, taskId) in tasks
      ensures r.Some? ==> r.value == tasks[(projectId, taskId)]
      ensures r.Some? ==> r.value.id == taskId && r.value.projectId == projectId
    {
      r := if (projectId, taskId) in tasks then Some(tasks[(projectId, taskId)]) else None;
    }

    /** The order `createTask` reads before writing: the partition's tasks by descending order,
        the first one's order plus one, or 0 when the partition is empty. */
    method NextOrder(projectId: string, status: string) returns (o: real)
      requires Valid()
      ensures IsAppendOrder(o, PartitionOrders(tasks, projectId, status))
    {
      var docs := CollectWhere(tasks, (k: TaskKey, t: Task) => k.0 == projectId && t.status == status);
      var byOrderDesc := SortBy(docs, HighestOrderFirst);
      assert multiset(byOrderDesc) == multiset(Partition(tasks, projectId, status));
      AppendAfterDescendingListing(tasks, projectId, status, byOrderDesc);
      if |byOrderDesc| > 0 {
        var last := byOrderDesc[0];
        o := last.order + 1.0;
      } else {
        o := 0.0;
      }
    }

    /** `createTask`: appends the new task at the end of its status partition. */
    method CreateTask(projectId: string, data: NewTaskData, newId: string, now: Timestamp)
      requires Valid() && (projectId, newId) !in tasks
      modifies this
      ensures Valid() && projects == old(projects)
      ensures tasks == old(tasks)[(projectId, newId) :=
        NewTask(newId, projectId, data, AppendOrderOf(PartitionOrders(old(tasks), projectId, PartitionStatus(data.status))), now)]
    {
      var newOrder := NextOrder(projectId, PartitionStatus(data.status));
      AppendOrderUnique(newOrder, AppendOrderOf(PartitionOrders(tasks, projectId, PartitionStatus(data.status))),
                        PartitionOrders(tasks, projectId, PartitionStatus(data.status)));
      tasks := tasks[(projectId, newId) := NewTask(newId, projectId, data, newOrder, now)];
    }

    /** `updateTask`: merges the supplied fields into an existing document; `ok` is false when
        the document does not exist (the store rejects the write). */
    method UpdateTask(projectId: string, taskId: string, p: TaskPatch, now: Timestamp) returns (ok: bool)
      requires Valid()
      modifies this
      ensures Valid() && projects == old(projects)
      ensures ok <==> (projectId, taskId) in old(tasks)
      ensures tasks == UpdatedTasks(old(tasks), (projectId, taskId), p, now)
    {
      ok := (projectId, taskId) in tasks;
      if ok {
        tasks := tasks[(projectId, taskId) := ApplyPatch(tasks[(projectId, taskId)], p, now)];
      }
    }

    /** `deleteTask`: removes exactly the named document; the other tasks keep their orders. */
    method DeleteTask(projectId: string, taskId: string)
      requires Valid()
      modifies this
      ensures Valid() && projects == old(projects)
      ensures tasks == old(tasks) - {(projectId, taskId)}
      ensures forall k :: k in tasks ==> tasks[k] == old(tasks)[k]
    {
      tasks := tasks - {(projectId, taskId)};
    }
  }
}
