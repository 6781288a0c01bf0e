/** The task form that the create and edit dialogs share: its values, its schema, and the
    AI priority suggestion that fills in its priority. */
module TaskForm {
  import opened Types
  import Text

  /** The form's fields: no assignee and no order, and the description may be absent. */
  datatype TaskFormValues = TaskFormValues(
    title: string,
    description: Option<string>,
    status: string,
    priority: string,
    dueDate: Option<Timestamp>)

  /** The form schema: a title of 3 to 100 characters and a description of at most 500.
      The status and priority validators accept any string, so they reject nothing. */
  predicate ValidTaskForm(v: TaskFormValues)
  {
    && 3 <= |v.title| <= 100
    && (v.description.Some? ==> |v.description.value| <= 500)
  }

  /** Only the title and the description can make a form invalid: any status or priority
      passes, built-in or not. */
  lemma StatusAndPriorityAreFree(v: TaskFormValues, status: string, priority: string)
    ensures ValidTaskForm(v) <==> ValidTaskForm(v.(status := status, priority := priority))
    ensures ValidTaskForm(v.(description := None)) <==> 3 <= |v.title| <= 100
  {
  }

  /** The three levels the suggestion flow may answer with. */
  datatype Level = Low | Medium | High
  {
    function Name(): (name: string)
      ensures name in TaskPriorities
    {
      match this
      case Low => "low"
      case Medium => "medium"
      case High => "high"
    }
  }

  /** The flow's answer: a level and the reason given for it. */
  datatype Suggestion = Suggestion(priority: Level, reason: string)

  /** Each level names a different built-in priority, and every built-in priority is named. */
  lemma LevelNames(p: string)
    ensures Low.Name() != Medium.Name() && Medium.Name() != High.Name() && Low.Name() != High.Name()
    ensures p in TaskPriorities <==> exists l: Level :: l.Name() == p
  {
    if p in TaskPriorities {
      if p == "low" { assert Low.Name() == p; }
      else if p == "medium" { assert Medium.Name() == p; }
      else { assert High.Name() == p; }
    }
  }

  /** `handleSuggestPriority` asks only when the title is not blank. */
  predicate CanSuggest(v: TaskFormValues)
  {
    !Text.IsBlank(v.title)
  }

  /** The form after a suggestion request that came back with `result` (`None` when the
      flow failed): a suggested level replaces the priority, and nothing else changes. */
  function Suggested(v: TaskFormValues, result: Option<Suggestion>): (r: TaskFormValues)
    ensures r.title == v.title && r.description == v.description && r.status == v.status && r.dueDate == v.dueDate
    ensures result.Some? ==> r.priority == result.value.priority.Name() && r.priority in TaskPriorities
    ensures result.None? ==> r == v
  {
    if result.Some? then v.(priority := result.value.priority.Name()) else v
  }

  /** A suggestion never makes a valid form invalid, nor an invalid one valid. */
  lemma SuggestionKeepsValidity(v: TaskFormValues, result: Option<Suggestion>)
    ensures ValidTaskForm(Suggested(v, result)) <==> ValidTaskForm(v)
  {
    StatusAndPriorityAreFree(v, v.status, Suggested(v, result).priority);
  }
}
