/** The board's "Create New Task" dialog: its defaults, the reset that keeps a closed dialog
    blank, the priority suggestion and what a submit writes. */
module CreateTaskDialog {
  import opened Types
  import opened Firestore
  import opened TaskForm

  /** The blank form for a dialog opened from a column of `defaultStatus`. */
  function DefaultTaskForm(defaultStatus: string): TaskFormValues
  {
    TaskFormValues("", Some(""), defaultStatus, "medium", None)
  }

  /** A blank form cannot be submitted; a title of 3 to 100 characters is all it lacks. */
  lemma DefaultFormNeedsATitle(defaultStatus: string, title: string)
    ensures !ValidTaskForm(DefaultTaskForm(defaultStatus))
    ensures ValidTaskForm(DefaultTaskForm(defaultStatus).(title := title)) <==> 3 <= |title| <= 100
  {
  }

  /** `{ ...values, dueDate }`: what `createTask` receives; the form has no assignee. */
  function TaskData(v: TaskFormValues): NewTaskData
  {
    NewTaskData(v.title, v.description, v.status, v.priority, v.dueDate, None)
  }

  /** The stored task carries the form's fields as they were typed, the new id and project,
      the given order and the write's instant as both timestamps. */
  lemma CreatedTaskFollowsForm(id: string, projectId: string, v: TaskFormValues, order: real, now: Timestamp)
    ensures var t := NewTask(id, projectId, TaskData(v), order, now);
      && t.id == id && t.projectId == projectId && t.order == order
      && t.title == v.title && t.description == v.description && t.status == v.status
      && t.priority == v.priority && t.dueDate == v.dueDate && t.assignedToId == None
      && t.createdAt == now && t.updatedAt == now
  {
  }

  class Dialog {
    const projectId: string
    var defaultStatus: string
    var isOpen: bool
    var isLoading: bool
    var isAiLoading: bool
    var aiSuggestion: Option<Suggestion>
    var form: TaskFormValues

    /** Between events nothing is loading, and a closed dialog holds the blank form and no
        suggestion: the reset effect runs whenever the dialog is closed. */
    ghost predicate Valid()
      reads this
    {
      && !isLoading && !isAiLoading
      && (!isOpen ==> form == DefaultTaskForm(defaultStatus) && aiSuggestion.None?)
    }

    constructor(projectId: string, defaultStatus: string)
      ensures Valid() && !isOpen
      ensures this.projectId == projectId && this.defaultStatus == defaultStatus
    {
      this.projectId := projectId;
      this.defaultStatus := defaultStatus;
      isOpen := false;
      isLoading := false;
      isAiLoading := false;
      aiSuggestion := None;
      form := DefaultTaskForm(defaultStatus);
    }

    /** The reset effect: every field of the form is set back, so nothing typed survives. */
    method ResetIfClosed()
      modifies this
      ensures isOpen == old(isOpen) && defaultStatus == old(defaultStatus)
      ensures isLoading == old(isLoading) && isAiLoading == old(isAiLoading)
      ensures !isOpen ==> form == DefaultTaskForm(defaultStatus) && aiSuggestion.None?
      ensures isOpen ==> form == old(form) && aiSuggestion == old(aiSuggestion)
    {
      if !isOpen {
        form := TaskFormValues("", Some(""), defaultStatus, "medium", None);
        aiSuggestion := None;
      }
    }

    /** `onOpenChange`: opening keeps the blank form; closing discards what was typed. */
    method OnOpenChange(open: bool)
      requires Valid()
      modifies this
      ensures Valid() && isOpen == open && defaultStatus == old(defaultStatus)
      ensures open ==> form == old(form) && aiSuggestion == old(aiSuggestion)
    {
      isOpen := open;
      ResetIfClosed();
    }

    /** A caller may pass another default status: a closed dialog picks it up at once, an
        open one keeps what is being typed. */
    method SetDefaultStatus(status: string)
      requires Valid()
      modifies this
      ensures Valid() && defaultStatus == status && isOpen == old(isOpen)
      ensures isOpen ==> form == old(form) && aiSuggestion == old(aiSuggestion)
    {
      defaultStatus := status;
      ResetIfClosed();
    }

    /** The user types into the fields of the open dialog. */
    method Edit(values: TaskFormValues)
      requires Valid() && isOpen
      modifies this
      ensures Valid() && isOpen && form == values && defaultStatus == old(defaultStatus)
      ensures aiSuggestion == old(aiSuggestion)
    {
      form := values;
    }

    /** `handleSuggestPriority`, with the flow's answer as `result` (`None` when it failed):
        a blank title changes nothing; otherwise the answer, if any, is shown and fills in
        the priority. */
    method SuggestPriority(result: Option<Suggestion>)
      requires Valid() && isOpen
      modifies this
      ensures Valid() && isOpen && defaultStatus == old(defaultStatus)
      ensures !CanSuggest(old(form)) ==> form == old(form) && aiSuggestion == old(aiSuggestion)
      ensures CanSuggest(old(form)) ==> form == Suggested(old(form), result) && aiSuggestion == result
    {
      if !CanSuggest(form) {
        // the "enter a task title first" message
        return;
      }
      isAiLoading := true;
      aiSuggestion := None;
      if result.Some? {
        aiSuggestion := result;
      }
      form := Suggested(form, result);
      isAiLoading := false;
    }

    /** `form.handleSubmit(onSubmit)`: an invalid form changes nothing; a valid one creates
        the task at the end of its status's partition, and the dialog resets and closes. */
    method Submit(db: Database, newId: string, now: Timestamp) returns (created: bool)
      requires Valid() && db.Valid() && (projectId, newId) !in db.tasks
      modifies this, db
      ensures Valid() && db.Valid() && db.projects == old(db.projects) && defaultStatus == old(defaultStatus)
      ensures created <==> ValidTaskForm(old(form))
      ensures !created ==> (db.tasks == old(db.tasks) && form == old(form) && isOpen == old(isOpen)
        && aiSuggestion == old(aiSuggestion))
      ensures created ==> (db.tasks == old(db.tasks)[(projectId, newId) :=
          NewTask(newId, projectId, TaskData(old(form)),
                  AppendOrderOf(PartitionOrders(old(db.tasks), projectId, PartitionStatus(old(form).status))), now)]
        && !isOpen && form == DefaultTaskForm(defaultStatus) && aiSuggestion.None?)
    {
      if !ValidTaskForm(form) {
        return false;
      }
      isLoading := true;
      db.CreateTask(projectId, TaskData(form), newId, now);
      form := DefaultTaskForm(defaultStatus);
      aiSuggestion := None;
      isOpen := false;
      isLoading := false;
      created := true;
    }
  }
}
