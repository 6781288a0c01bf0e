# TaskZen board, modelled in Dafny

TaskZen is a Kanban board. Each project holds tasks. Each task has a status (one of the
three built-in columns "todo", "in-progress" and "done", or any custom string) and a
numeric `order` inside its (project, status) partition. This project models the following
parts of it and proves properties about them:

- how drag-and-drop changes `order` and `status`:
  - a drop on a column's empty area (`TaskColumn`);
  - a drop on another card (`TaskCard`);
  - the order `createTask` assigns (`Firestore`);
- how the board splits a project's tasks into columns (`TaskBoard`);
- the document store behind it (`Firestore.Database`): a class whose two maps hold the
  project and task documents, with the create, update, delete, lookup and listing requests;
- the three dialogs:
  - their form schemas (`CreateProjectDialog`, `TaskForm`);
  - their defaults;
  - their submit, reset and priority-suggestion handlers, as classes whose fields are the
    component's state (`CreateProjectDialog.Dialog`, `CreateTaskDialog.Dialog`,
    `EditTaskDialog.Dialog`);
- the lookup tables: status titles, priority badges and the project colour palette.

`order` is a Dafny `real`. Every order the program produces is an integer or a
half-integer, so the model states no property that depends on floating-point rounding.
Server timestamps are a `now` parameter. A fresh document id is a `newId` parameter that
must not be taken yet. The answer of the priority-suggestion flow is a `result`
parameter, `None` when the call failed. The column a drop handler sees is its `tasks`
parameter.

Three behaviours of the code are modelled as written and stated as lemmas:

- A task dropped onto a card gets `target.order - 0.5`. That order can tie with the card
  above the target (`TaskCard.DropOnCardCanTie`). The code's own comment calls this a
  simple strategy.
- `createTask` computes the order in the partition `status || "todo"` but stores the status
  it was given. A task created with an empty status therefore shows in no column
  (`TaskBoard.EmptyStatusTaskIsHidden`). The dialogs never send an empty status.
- The edit dialog leaves an empty due date out of the update, so an edit cannot clear a
  due date (`EditTaskDialog.EditCannotClearDueDate`).

A drop on a card in another column is stopped at the card and writes nothing. The same
drop on the column's empty area would move the task
(`TaskColumn.DropOnCardOfOtherColumnIsIgnored`).

## Model

| member | source | states |
|---|---|---|
| Types.AppendOrderExists | src/lib/firestore.ts:119-122 | every finite set of orders has an append order: one more than its largest element, or 0 when it is empty |
| Types.AppendOrderUnique | src/lib/firestore.ts:121-122 | the append order is unique and lies strictly above every existing order of the partition |
| Types.AppendOrderOf | src/lib/firestore.ts:121-122 | the order the append rule picks for a set of orders satisfies that rule |
| Types.AppendAfterAppend | src/lib/firestore.ts:119-122 | the first task of an empty partition gets order 0, and each later append gets the previous append's order plus 1 |
| Types.BuiltInStatusesAreDistinct | src/types/index.ts:16-17 | the three built-in statuses are different and none is empty |
| Lists.Filter | src/components/project/TaskBoard.tsx:21 | keeps exactly the elements that satisfy the predicate, each as many times as it occurs, and nothing else |
| Lists.FilterKeepsSorted | src/components/project/TaskBoard.tsx:21 | filtering a sequence that is sorted by a key keeps it sorted |
| Lists.InsertBy | src/components/project/TaskBoard.tsx:21 | inserting adds exactly the inserted element and removes nothing |
| Lists.InsertByKeepsSorted | src/components/project/TaskBoard.tsx:21 | inserting into a sorted sequence keeps it sorted |
| Lists.SortBy | src/components/project/TaskBoard.tsx:21 | the result is sorted ascending by the key and is a permutation of the input |
| Lists.SortBySortedIsIdentity | src/components/project/TaskBoard.tsx:21 | sorting a sequence that is already sorted leaves it unchanged |
| Lists.InsertByIsStable | src/components/project/TaskBoard.tsx:21 | insertion keeps the relative order of the elements that share a key, with the inserted element first |
| Lists.SortByIsStable | src/components/project/TaskBoard.tsx:21 | the sort is stable: the elements sharing any one key come out in the order they went in |
| Text.Capitalize | src/components/project/TaskColumn.tsx:24 | `charAt(0).toUpperCase() + slice(1)`; what it does is stated by `Text.CapitalizeTouchesOnlyTheHead` |
| Text.CapitalizeTouchesOnlyTheHead | src/components/project/TaskColumn.tsx:24 | capitalising keeps the length and every character after the first; a lower-case ASCII first letter becomes its upper-case letter (32 code points lower), any other first character stays as it is; capitalising twice is the same as once |
| Firestore.ApplyPatch | src/lib/firestore.ts:143-149 | the effect of `updateDoc` with a partial update; stated by `Firestore.PatchChangesOnlySuppliedFields` and `Firestore.ApplyPatchIdempotent` |
| Firestore.NewTask | src/lib/firestore.ts:125-131 | the document `addDoc` writes for a new task; stated by `Firestore.Database.CreateTask` and `CreateTaskDialog.CreatedTaskFollowsForm` |
| Firestore.PatchChangesOnlySuppliedFields | src/lib/firestore.ts:140-149 | an update changes exactly the fields it supplies, plus `updatedAt`; id, project and creation time never change |
| Firestore.ApplyPatchIdempotent | src/lib/firestore.ts:143-149 | applying the same update twice gives the same task as applying it once |
| Firestore.NewProject | src/lib/firestore.ts:69-74 | a created project is owned by the creator, and the creator is its one and only member |
| Firestore.CollectWhere | src/lib/firestore.ts:40 | a query's result holds exactly the documents its filter keeps, each once |
| Firestore.Database.CreateProject | src/lib/firestore.ts:66-80 | adds exactly one project document, under the new id, built by `NewProject`; the tasks are unchanged |
| Firestore.Database.GetProjectById | src/lib/firestore.ts:51-63 | returns the document when it exists and nothing (null) otherwise |
| Firestore.Database.ProjectsForUser | src/lib/firestore.ts:35-49 | lists exactly the projects whose members include the user, newest first; an empty list after an error |
| Firestore.Database.TasksForProject | src/lib/firestore.ts:84-98 | lists exactly the project's tasks, in ascending order; an empty list after an error |
| Firestore.Database.GetTaskById | src/lib/firestore.ts:100-112 | returns the task document when it exists and nothing (null) otherwise |
| Firestore.Database.NextOrder | src/lib/firestore.ts:117-122 | the partition's highest order plus one, or 0 when the project has no task with that status |
| Firestore.AppendAfterDescendingListing | src/lib/firestore.ts:117-122 | reading a partition by descending order, the first order plus one (0 for an empty read) is the append order of that partition |
| Firestore.Database.CreateTask | src/lib/firestore.ts:115-137 | adds exactly one task: the given fields, the project, and the append order of the partition `status` (or "todo" when the status is empty) |
| Firestore.Database.UpdateTask | src/lib/firestore.ts:140-154 | merges the supplied fields into the existing document and reports success exactly when that document exists; the store is otherwise unchanged |
| Firestore.Database.DeleteTask | src/lib/firestore.ts:156-164 | removes exactly the named task; every other task keeps its order and fields |
| TaskCard.DragStart | src/components/project/TaskCard.tsx:48-55 | the three drag data entries a card writes; stated by `TaskCard.DragPayloadRoundTrip` |
| TaskCard.ReadPayload | src/components/project/TaskCard.tsx:66-68 | the three entries a drop handler reads, "" when absent; stated by `TaskCard.DragPayloadRoundTrip` |
| TaskCard.DropOnCard | src/components/project/TaskCard.tsx:62-77 | the update a drop onto a card decides; stated by `TaskCard.DropOnCardDecision`, `TaskCard.DropOnSelfIsIgnored` and `TaskCard.DropOnCardCanTie` |
| TaskCard.DragPayloadRoundTrip | src/components/project/TaskCard.tsx:48-68 | the drop handlers read back exactly the task id, project id and status that drag start wrote |
| TaskCard.DropOnCardDecision | src/components/project/TaskCard.tsx:62-86 | a reorder is written exactly when all four guard conditions hold; it carries only `order`, set to `target.order - 0.5`, so below the target's order and -0.5 for a target at 0 |
| TaskCard.DropOnSelfIsIgnored | src/components/project/TaskCard.tsx:70 | dropping a card onto itself writes nothing |
| TaskCard.DropOnCardCanTie | src/components/project/TaskCard.tsx:73-77 | with orders 0, 0.5 and 1, dropping the last card on the middle one gives it order 0, tying with the first |
| TaskCard.HandleDropOnCard | src/components/project/TaskCard.tsx:62-86 | issues one update exactly when the decision says so, and the store then holds exactly that update's effect |
| TaskCard.HandleDelete | src/components/project/TaskCard.tsx:39-46 | deletes exactly the card's task from the board's project |
| TaskCard.PriorityVariant | src/components/project/TaskCard.tsx:117 | the variant from `priorityVariantMap`, "outline" when the priority has none; stated by `TaskCard.PriorityVariantTable` |
| TaskCard.PriorityVariantTable | src/components/project/TaskCard.tsx:30-34 | low, medium and high map to secondary, default and destructive; every other priority gets outline |
| TaskColumn.ColumnTitle | src/components/project/TaskColumn.tsx:24 | the title from `statusTitles`, or the capitalised status when it has none; stated by `TaskColumn.ColumnTitles` |
| TaskColumn.ColumnTitles | src/components/project/TaskColumn.tsx:17-24 | the built-in statuses have titles To Do, In Progress and Done; any other status is shown capitalised: same length, same tail, first character upper-cased when it is a lower-case letter |
| TaskColumn.MaxOrder | src/components/project/TaskColumn.tsx:62 | the maximum is one of the column's orders and no order exceeds it |
| TaskColumn.AppendOrder | src/components/project/TaskColumn.tsx:60-63 | one more than the largest order among the column's other tasks, or 0 when there is none |
| TaskColumn.FindTask | src/components/project/TaskColumn.tsx:53 | returns the first task with that id and status, and nothing exactly when there is none |
| TaskColumn.DropOnColumn | src/components/project/TaskColumn.tsx:40-78 | the update a drop on the column's empty area decides; stated by `TaskColumn.ForeignDropIsIgnored`, `TaskColumn.CrossColumnDropAppends`, `TaskColumn.SameColumnDropOnlyReorders` and `TaskColumn.SameColumnDropIsIdempotent` |
| TaskColumn.ForeignDropIsIgnored | src/components/project/TaskColumn.tsx:44-46 | a payload with an empty task id, or from another project, writes nothing |
| TaskColumn.CrossColumnDropAppends | src/components/project/TaskColumn.tsx:60-71 | a drop from another column always writes one update, setting the column's status and the order `AppendOrder` gives: strictly above every other task of the column, 0 in an empty column; it writes no other field |
| TaskColumn.CrossColumnDropMatchesCreate | src/components/project/TaskColumn.tsx:60-63 | a task dropped in from another column gets the same order a task created in that status would get |
| TaskColumn.SameColumnDropOnlyReorders | src/components/project/TaskColumn.tsx:53-78 | a drop within the column never changes the status; it writes only the new order, and exactly when the task is in the column with that status and not already at that order |
| TaskColumn.SameColumnDropIsIdempotent | src/components/project/TaskColumn.tsx:60-78 | after a same-column drop has been written, repeating it on the column as delivered again, in any order, writes nothing |
| TaskColumn.HandleDrop | src/components/project/TaskColumn.tsx:32-93 | issues at most one update, exactly when the decision says so, and the store then holds exactly that update's effect |
| TaskColumn.DropOnCardOfOtherColumnIsIgnored | src/components/project/TaskCard.tsx:62-70 | a task from another column dropped onto a card writes nothing, though the same drop on the column's empty area would move it |
| TaskBoard.TasksByStatus | src/components/project/TaskBoard.tsx:19-22 | holds exactly the tasks with that status, as many times as they were delivered, sorted ascending by order |
| TaskBoard.ColumnShows | src/components/project/TaskBoard.tsx:19-22 | a column holds a task only when the task has the column's status, and then every delivered copy of it |
| TaskBoard.Board | src/components/project/TaskBoard.tsx:57-64 | one column per built-in status, in list order, each showing that status's tasks |
| TaskBoard.BoardColumnOrder | src/components/project/TaskBoard.tsx:57 | the columns are todo, in-progress and done, left to right |
| TaskBoard.BoardShowsEachTaskOnce | src/components/project/TaskBoard.tsx:57-63 | a task appears only in the column of its own status, with every delivered copy; the built-in statuses are distinct, so a custom status appears in no column |
| TaskBoard.ColumnOfSortedListing | src/components/project/TaskBoard.tsx:19-22 | for a listing already sorted by order, a column is the listing's tasks of that status in the listing's own order |
| TaskBoard.EmptyStatusTaskIsHidden | src/lib/firestore.ts:119-131 | a task created with an empty status is ordered in the "todo" partition but is shown in no column |
| ProjectCard.ClassFor | src/components/dashboard/ProjectCard.tsx:26 | the class of the first entry with the project's colour, or "bg-primary" when no entry has it or that entry's class is empty |
| ProjectCard.PaletteShape | src/components/dashboard/ProjectCard.tsx:15-22 | six entries with distinct values, each painted by `bg-[` + value + `]` |
| CreateProjectDialog.PaletteColorsAreShaped | src/components/dashboard/ProjectCard.tsx:15-22 | every palette value is a `#` followed by six hex digits |
| ProjectCard.ColorClassOfPalette | src/components/dashboard/ProjectCard.tsx:26 | a palette colour gets its own entry's class; any other colour gets "bg-primary" |
| ProjectCard.MemberNoun | src/components/dashboard/ProjectCard.tsx:46 | "member" exactly when the count is one, "members" otherwise |
| CreateProjectDialog.IsHexColor | src/components/dashboard/CreateProjectDialog.tsx:43 | the colour pattern `^#[0-9a-fA-F]{6}$`; stated by `CreateProjectDialog.HexColorClosedForm` |
| CreateProjectDialog.ValidProjectForm | src/components/dashboard/CreateProjectDialog.tsx:40-44 | the project form schema; stated by `CreateProjectDialog.DefaultFormNeedsOnlyAName` and `CreateProjectDialog.PaletteColorsAreValid` |
| CreateProjectDialog.HexRunClosedForm | src/components/dashboard/CreateProjectDialog.tsx:43 | `[0-9a-fA-F]{n}$` matches exactly the strings of n hex digits |
| CreateProjectDialog.HexColorClosedForm | src/components/dashboard/CreateProjectDialog.tsx:43 | the colour pattern matches exactly a `#` followed by six hex digits |
| CreateProjectDialog.PaletteColorsAreValid | src/components/dashboard/CreateProjectDialog.tsx:61 | every palette colour, the default included, passes the colour rule |
| CreateProjectDialog.DefaultFormNeedsOnlyAName | src/components/dashboard/CreateProjectDialog.tsx:40-63 | the default form is rejected, and adding a name of 3 to 50 characters is exactly what it needs to pass |
| CreateProjectDialog.ProjectData | src/components/dashboard/CreateProjectDialog.tsx:72 | the create request carries the form's name, description and colour unchanged |
| CreateProjectDialog.Dialog.constructor | src/components/dashboard/CreateProjectDialog.tsx:53-63 | the dialog starts closed, not loading, with the default form |
| CreateProjectDialog.Dialog.OnOpenChange | src/components/dashboard/CreateProjectDialog.tsx:92 | opening or closing keeps the typed values |
| CreateProjectDialog.Dialog.Edit | src/components/dashboard/CreateProjectDialog.tsx:56-63 | typing replaces the form values and nothing else |
| CreateProjectDialog.Dialog.Submit | src/components/dashboard/CreateProjectDialog.tsx:65-89 | an invalid form or a signed-out user changes nothing; otherwise one project is created with the user as owner, and the form resets and the dialog closes |
| TaskForm.ValidTaskForm | src/components/project/CreateTaskDialog.tsx:45-56 | the task form schema; stated by `TaskForm.StatusAndPriorityAreFree` and `TaskForm.SuggestionKeepsValidity` |
| TaskForm.StatusAndPriorityAreFree | src/components/project/CreateTaskDialog.tsx:45-56 | any status and any priority pass the schema, and a missing description does too; only the title's length can fail |
| TaskForm.Level.Name | src/ai/flows/suggest-task-priority.ts:23-25 | every suggested level names a built-in priority |
| TaskForm.LevelNames | src/ai/flows/suggest-task-priority.ts:23-25 | the three levels name the three built-in priorities, one each |
| TaskForm.Suggested | src/components/project/CreateTaskDialog.tsx:113-114 | a suggestion sets only the priority, to a built-in one; a failed request leaves the form unchanged |
| TaskForm.SuggestionKeepsValidity | src/components/project/CreateTaskDialog.tsx:114 | a suggestion never changes whether the form passes the schema |
| CreateTaskDialog.DefaultFormNeedsATitle | src/components/project/CreateTaskDialog.tsx:73-82 | the blank form is rejected, and a title of 3 to 100 characters is exactly what it lacks |
| CreateTaskDialog.TaskData | src/components/project/CreateTaskDialog.tsx:126-129 | the create request built from the form; stated by `CreateTaskDialog.CreatedTaskFollowsForm` |
| CreateTaskDialog.CreatedTaskFollowsForm | src/components/project/CreateTaskDialog.tsx:126-130 | the created task carries the form's fields, no assignee, the new id and project, and the write's instant |
| CreateTaskDialog.Dialog.constructor | src/components/project/CreateTaskDialog.tsx:66-82 | the dialog starts closed with the blank form for its default status |
| CreateTaskDialog.Dialog.ResetIfClosed | src/components/project/CreateTaskDialog.tsx:84-97 | while closed, the form is reset to the blank one for the current default status and the suggestion is cleared |
| CreateTaskDialog.Dialog.OnOpenChange | src/components/project/CreateTaskDialog.tsx:150 | keeps the invariant that a closed dialog holds the blank form; opening changes nothing else |
| CreateTaskDialog.Dialog.SetDefaultStatus | src/components/project/CreateTaskDialog.tsx:84-97 | a new default status reaches a closed dialog's form at once and leaves an open one's typing alone |
| CreateTaskDialog.Dialog.Edit | src/components/project/CreateTaskDialog.tsx:73-82 | typing into the open dialog replaces the form values |
| CreateTaskDialog.Dialog.SuggestPriority | src/components/project/CreateTaskDialog.tsx:100-121 | a blank title changes nothing; otherwise the suggestion is shown and sets the priority |
| CreateTaskDialog.Dialog.Submit | src/components/project/CreateTaskDialog.tsx:123-147 | an invalid form changes nothing; a valid one creates one task at the end of its partition, then the form resets to the blank form for the unchanged default status and the dialog closes |
| EditTaskDialog.FormFromTask | src/components/project/EditTaskDialog.tsx:72-81 | the form shows the task's fields, with a missing description as "" |
| EditTaskDialog.EditPatch | src/components/project/EditTaskDialog.tsx:123-127 | the update built from the form; stated by `EditTaskDialog.EditKeepsPlacement`, `EditTaskDialog.EditCannotClearDueDate` and `EditTaskDialog.UnchangedEditRoundTrip` |
| EditTaskDialog.EditKeepsPlacement | src/components/project/EditTaskDialog.tsx:120-127 | an edit rewrites title, status and priority and keeps the task's id, project, order, assignee and creation time |
| EditTaskDialog.EditCannotClearDueDate | src/components/project/EditTaskDialog.tsx:123-127 | an empty due date in the form leaves the stored due date in place |
| EditTaskDialog.UnchangedEditRoundTrip | src/components/project/EditTaskDialog.tsx:120-127 | saving the form unchanged only refreshes the update time, and turns a missing description into "" |
| EditTaskDialog.Dialog.constructor | src/components/project/EditTaskDialog.tsx:72-81 | the dialog starts closed with the form filled from the task |
| EditTaskDialog.Dialog.ReloadIfOpen | src/components/project/EditTaskDialog.tsx:83-94 | while open, the form shows the current task and no suggestion |
| EditTaskDialog.Dialog.OnOpenChange | src/components/project/EditTaskDialog.tsx:83-94 | opening fills the form from the task afresh and clears the suggestion; closing changes only the open flag; the task and the loading flags never change |
| EditTaskDialog.Dialog.SetTask | src/components/project/EditTaskDialog.tsx:83-94 | a newer task reaches an open dialog's form at once and clears its suggestion; a closed dialog keeps its form and suggestion; the open and loading flags never change |
| EditTaskDialog.Dialog.Edit | src/components/project/EditTaskDialog.tsx:72-81 | typing replaces the form values; the open flag, task, suggestion and loading flags are kept |
| EditTaskDialog.Dialog.SuggestPriority | src/components/project/EditTaskDialog.tsx:97-118 | a blank title changes nothing; otherwise the suggestion is shown and sets the priority, and the AI loading flag ends false; the save loading flag is never touched |
| EditTaskDialog.Dialog.Submit | src/components/project/EditTaskDialog.tsx:120-143 | an invalid form changes nothing; a valid one sends one update of the task's own document, ends not loading, and the dialog closes only when the update was accepted; the AI loading flag is never touched |

## Left out

- Firestore.Database.TasksForProject: equal orders are not put in document-id order, as the store would do. The contract states only that the listing is sorted ascending and holds exactly the project's tasks.
- Firestore.Database.ProjectsForUser: equal creation times are not put in document-id order. The contract states only newest-first and exactly the member projects.
- Text.Capitalize and Text.CapitalizeTouchesOnlyTheHead (through their helper `Text.UpperCase`): only ASCII letters are upper-cased. `toUpperCase` also maps other scripts, and can lengthen a string (for example "ß" becomes "SS").
- Form lengths count Dafny characters. The schemas count UTF-16 code units, so a character outside the Basic Multilingual Plane counts once here and twice there.
- TaskColumn.ColumnTitle and TaskCard.PriorityVariant: table lookups on inherited object keys are not modelled. `statusTitles["constructor"]` and `priorityVariantMap["constructor"]` yield a function, not a title or a variant.
- Remote failures are not modelled: network, permission and quota errors, and the error toasts they raise. The only failure is an update of a document that does not exist.
- Firestore.Database.CreateTask and CreateTaskDialog.Dialog.Submit assume every create succeeds, with an undefined `dueDate` dropped from the document. The form sends `dueDate: undefined` when no date was picked (src/components/project/CreateTaskDialog.tsx:128), and `addDoc` writes the data as given (src/lib/firestore.ts:125-131). Firestore's default setting rejects undefined fields, so under it every create without a due date fails; the model does not capture that failure.
- TaskColumn.SameColumnDropOnlyReorders and TaskColumn.SameColumnDropIsIdempotent require each task id to occur once in the column. A column built from one listing of one project meets this.
- The race between reading the partition and writing the task (in `createTask` and in the drop handlers) is not modelled; each request runs alone.
- Floating-point `order` is not modelled. Orders are exact reals. Repeated subtraction of 0.5 from an order stays exact in doubles only while the order's magnitude is below 2^52; the model ignores that bound.
- The place a task dropped onto a card takes relative to another card of equal order is not stated. Ties are broken by the order in which the listing delivers tasks, and the model leaves that order open (see `Firestore.Database.TasksForProject` above).
- The priority badge's text (src/components/project/TaskCard.tsx:118) is display only and is not modelled.
- `mapDocToTask`, `mapDocToProject` and `convertTimestamps` are not modelled. Documents are `Task` and `Project` values, and timestamps are opaque instants.
- The live subscriptions and the hooks around them are not modelled. A listing is one delivery (`TasksForProject`, `ProjectsForUser`), and what a component sees is a parameter.
- EditTaskDialog.Dialog.Submit and Firestore.Database.UpdateTask treat an update field left undefined as omitted. The edit form sends `dueDate: undefined` when the date is empty (src/components/project/EditTaskDialog.tsx:125). Under Firestore's default setting, which rejects undefined fields, such an edit fails instead; the model does not capture that failure.
- The priority-suggestion flow is a foreign call. It is the `result` parameter, an arbitrary level with a reason, or `None` for a failure.
- Rendering is not modelled: toasts, drag opacity, loading spinners, the member count's digits, and the date and "created ago" formatting.
