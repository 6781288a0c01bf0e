/** A card's "Edit Task" dialog: the form it fills from the task, the update it sends, and
    what that update does and does not change. */
module EditTaskDialog {
  import opened Types
  import opened Firestore
  import opened TaskForm

  /** The form as the dialog fills it from `task`; a missing description shows as empty. */
  function FormFromTask(t: Task): (v: TaskFormValues)
    ensures v.title == t.title && v.status == t.status && v.priority == t.priority && v.dueDate == t.dueDate
    ensures v.description == Some(if t.description.Some? then t.description.value else "")
  {
    TaskFormValues(t.title, Some(if t.description.Some? then t.description.value else ""),
                   t.status, t.priority, t.dueDate)
  }

  /** `{ ...values, dueDate }` as the update: an absent description or due date is left out,
      the order and the assignee are never sent. */
  function EditPatch(v: TaskFormValues): TaskPatch
  {
    TaskPatch(Some(v.title), v.description, Some(v.status), Some(v.priority), v.dueDate, None, None)
  }

  /** An edit rewrites title, status and priority, rewrites description and due date only
      when the form has them, and keeps the task's identity, place in its column, assignee
      and creation time. */
  lemma EditKeepsPlacement(t: Task, v: TaskFormValues, now: Timestamp)
    ensures var r := ApplyPatch(t, EditPatch(v), now);
      && r.id == t.id && r.projectId == t.projectId && r.order == t.order
      && r.assignedToId == t.assignedToId && r.createdAt == t.createdAt && r.updatedAt == now
      && r.title == v.title && r.status == v.status && r.priority == v.priority
      && r.description == (if v.description.Some? then v.description else t.description)
      && r.dueDate == (if v.dueDate.Some? then v.dueDate else t.dueDate)
  {
    PatchChangesOnlySuppliedFields(t, EditPatch(v), now);
  }

  /** Clearing the due date in the form does not clear it on the task: the empty field is
      left out of the update. */
  lemma EditCannotClearDueDate(t: Task, v: TaskFormValues, now: Timestamp)
    requires t.dueDate.Some? && v.dueDate.None?
    ensures ApplyPatch(t, EditPatch(v), now).dueDate == t.dueDate
    ensures ApplyPatch(t, EditPatch(v), now).dueDate != v.dueDate
  {
    EditKeepsPlacement(t, v, now);
  }

  /** Saving the form unchanged only touches the update time, except that a missing
      description is stored as the empty one. */
  lemma UnchangedEditRoundTrip(t: Task, now: Timestamp)
    ensures ApplyPatch(t, EditPatch(FormFromTask(t)), now) ==
      t.(description := FormFromTask(t).description, updatedAt := now)
    ensures t.description.Some? ==> ApplyPatch(t, EditPatch(FormFromTask(t)), now) == t.(updatedAt := now)
  {
    EditKeepsPlacement(t, FormFromTask(t), now);
  }

  class Dialog {
    const projectId: string
    var task: Task
    var isOpen: bool
    var isLoading: bool
    var isAiLoading: bool
    var aiSuggestion: Option<Suggestion>
    var form: TaskFormValues

    constructor(task: Task, projectId: string)
      ensures !isOpen && !isLoading && !isAiLoading && aiSuggestion.None?
      ensures this.task == task && this.projectId == projectId && form == FormFromTask(task)
    {
      this.task := task;
      this.projectId := projectId;
      isOpen := false;
      isLoading := false;
      isAiLoading := false;
      aiSuggestion := None;
      form := FormFromTask(task);
    }

    /** The re-initialising effect: while the dialog is open, the form shows the task as it
        is now and no suggestion. */
    method ReloadIfOpen()
      modifies this
      ensures isOpen == old(isOpen) && task == old(task)
      ensures isLoading == old(isLoading) && isAiLoading == old(isAiLoading)
      ensures isOpen ==> form == FormFromTask(task) && aiSuggestion.None?
      ensures !isOpen ==> form == old(form) && aiSuggestion == old(aiSuggestion)
    {
      if isOpen {
        form := FormFromTask(task);
        aiSuggestion := None;
      }
    }

    /** `onOpenChange`: opening shows the task afresh, discarding edits left from before;
        closing changes nothing but the open flag. */
    method OnOpenChange(open: bool)
      modifies this
      ensures isOpen == open && task == old(task)
      ensures isLoading == old(isLoading) && isAiLoading == old(isAiLoading)
      ensures open ==> form == FormFromTask(task) && aiSuggestion.None?
      ensures !open ==> form == old(form) && aiSuggestion == old(aiSuggestion)
    {
      isOpen := open;
      ReloadIfOpen();
    }

    /** The card passes a newer version of the task: an open dialog shows it, dropping
        what was typed. */
    method SetTask(t: Task)
      modifies this
      ensures task == t && isOpen == old(isOpen)
      ensures isLoading == old(isLoading) && isAiLoading == old(isAiLoading)
      ensures isOpen ==> form == FormFromTask(t) && aiSuggestion.None?
      ensures !isOpen ==> form == old(form) && aiSuggestion == old(aiSuggestion)
    {
      task := t;
      ReloadIfOpen();
    }

    /** The user types into the fields. */
    method Edit(values: TaskFormValues)
      modifies this
      ensures form == values && isOpen == old(isOpen) && task == old(task)
      ensures aiSuggestion == old(aiSuggestion)
      ensures isLoading == old(isLoading) && isAiLoading == old(isAiLoading)
    {
      form := values;
    }

    /** `handleSuggestPriority`, with the flow's answer as `result` (`None` when it failed):
        a blank title changes nothing; otherwise the answer, if any, is shown and fills in
        the priority. */
    method SuggestPriority(result: Option<Suggestion>)
      modifies this
      ensures isOpen == old(isOpen) && task == old(task) && isLoading == old(isLoading)
      ensures !CanSuggest(old(form)) ==>
        form == old(form) && aiSuggestion == old(aiSuggestion) && isAiLoading == old(isAiLoading)
      ensures CanSuggest(old(form)) ==> form == Suggested(old(form), result) && aiSuggestion == result && !isAiLoading
    {
      if !CanSuggest(form) {
        // the "enter a task title first" message
        return;
      }
      isAiLoading := true;
      aiSuggestion := None;
      if result.Some? {
        aiSuggestion := result;
      }
      form := Suggested(form, result);
      isAiLoading := false;
    }

    /** `form.handleSubmit(onSubmit)`: an invalid form changes nothing; a valid one is sent as
        one update of the task's document, and the dialog closes only when the update was
        accepted, which it is exactly when the document exists. */
    method Submit(db: Database, now: Timestamp) returns (saved: bool)
      requires db.Valid()
      modifies this, db
      ensures db.Valid() && db.projects == old(db.projects) && task == old(task) && form == old(form)
      ensures saved <==> ValidTaskForm(old(form)) && (projectId, task.id) in old(db.tasks)
      ensures !ValidTaskForm(old(form)) ==> db.tasks == old(db.tasks) && isOpen == old(isOpen)
      ensures ValidTaskForm(old(form)) ==>
        db.tasks == UpdatedTasks(old(db.tasks), (projectId, task.id), EditPatch(old(form)), now)
      ensures saved ==> !isOpen && aiSuggestion.None?
      ensures !saved ==> isOpen == old(isOpen) && aiSuggestion == old(aiSuggestion)
      ensures isAiLoading == old(isAiLoading)
      ensures !ValidTaskForm(old(form)) ==> isLoading == old(isLoading)
      ensures ValidTaskForm(old(form)) ==> !isLoading
    {
      if !ValidTaskForm(form) {
        return false;
      }
      isLoading := true;
      saved := db.UpdateTask(projectId, task.id, EditPatch(form), now);
      if saved {
        aiSuggestion := None;
        isOpen := false;
      }
      // a rejected update is reported and leaves the dialog open
      isLoading := false;
    }
  }
}
