/** The tasks page: a list of tasks that can be completed, the task dialog's
    create and edit, the filtered view and the counters. */
module Tasks {
  import opened Wrappers
  import opened Seqs
  import opened Text
  import opened Dates

  datatype Priority = Low | Medium | High

  datatype Task = Task(
    id: String,
    title: String,
    description: Option<String>,
    completed: bool,
    priority: Priority,
    category: String,
    dueDate: Option<String>,
    createdAt: String)

  datatype TaskForm = TaskForm(
    title: String,
    description: String,
    priority: Priority,
    category: String,
    dueDate: String)

  const EmptyForm := TaskForm("", "", Medium, "Pessoal", "")

  function TaskId(t: Task): String {
    t.id
  }

  // ---------------------------------------------------------------------
  // Toggle and save

  function Toggled(t: Task): Task {
    t.(completed := !t.completed)
  }

  /** The list after `toggleTask(id)`. */
  function ToggleTask(tasks: seq<Task>, id: String): seq<Task> {
    MapByKey(tasks, TaskId, id, Toggled)
  }

  /** Toggling flips `completed` on the tasks with that id and changes nothing
      else; toggling twice gives the list back. */
  lemma ToggleTaskFacts(tasks: seq<Task>, id: String)
    ensures var r := ToggleTask(tasks, id);
            |r| == |tasks|
            && (forall i :: 0 <= i < |tasks| && tasks[i].id == id ==>
                  r[i] == tasks[i].(completed := !tasks[i].completed))
            && (forall i :: 0 <= i < |tasks| && tasks[i].id != id ==> r[i] == tasks[i])
    ensures ToggleTask(ToggleTask(tasks, id), id) == tasks
  {
    MapByKeyTwice(tasks, TaskId, id, Toggled);
  }

  /** `saveTask`'s guard: a non-blank title. */
  predicate CanSave(f: TaskForm) {
    !IsBlank(f.title)
  }

  /** The edit branch: id, completion and creation date stay. */
  function ApplyForm(f: TaskForm): Task -> Task {
    (t: Task) => t.(title := f.title, description := Some(f.description), priority := f.priority,
                    category := f.category, dueDate := Some(f.dueDate))
  }

  /** The create branch: a new task is not completed and is dated today. */
  function NewTask(id: String, f: TaskForm, today: String): Task {
    Task(id, f.title, Some(f.description), false, f.priority, f.category, Some(f.dueDate), today)
  }

  function SavedTasks(tasks: seq<Task>, f: TaskForm, editing: Option<Task>, id: String, today: String)
    : seq<Task>
  {
    if editing.Some? then MapByKey(tasks, TaskId, editing.value.id, ApplyForm(f))
    else tasks + [NewTask(id, f, today)]
  }

  /** An edited task is the task the form would create under its own id and
      creation date, with its completion kept; other tasks are unchanged. A
      new task is appended, open and dated today. */
  lemma SavedTasksFacts(tasks: seq<Task>, f: TaskForm, editing: Option<Task>, id: String, today: String)
    ensures var r := SavedTasks(tasks, f, editing, id, today);
            if editing.Some? then
              |r| == |tasks|
              && (forall i :: 0 <= i < |tasks| && tasks[i].id == editing.value.id ==>
                    r[i] == NewTask(tasks[i].id, f, tasks[i].createdAt).(completed := tasks[i].completed))
              && (forall i :: 0 <= i < |tasks| && tasks[i].id != editing.value.id ==> r[i] == tasks[i])
            else
              r[..|tasks|] == tasks && |r| == |tasks| + 1 && r[|tasks|] == NewTask(id, f, today)
              && !r[|tasks|].completed && r[|tasks|].createdAt == today
  {
    if editing.None? {
      assert (tasks + [NewTask(id, f, today)])[..|tasks|] == tasks;
    }
  }

  /** `editTask`: an absent description or due date shows as "". */
  function FormOf(t: Task): TaskForm {
    TaskForm(t.title, t.description.UnwrapOr(""), t.priority, t.category, t.dueDate.UnwrapOr(""))
  }

  /** Opening a task and saving it untouched gives it back, with an absent
      description or due date turned into "". */
  lemma EditThenSave(t: Task)
    ensures ApplyForm(FormOf(t))(t)
         == t.(description := Some(t.description.UnwrapOr("")), dueDate := Some(t.dueDate.UnwrapOr("")))
  {
  }

  // ---------------------------------------------------------------------
  // Filtering and counting

  datatype CompletionFilter = AllTasks | PendingOnly | CompletedOnly

  /** The three tests of `filteredTasks`. The search has no special case for
      the empty query: every title includes "". */
  predicate Matches(t: Task, filter: CompletionFilter, category: String, query: String) {
    (filter == AllTasks || (filter == PendingOnly && !t.completed) || (filter == CompletedOnly && t.completed))
    && (category == "all" || t.category == category)
    && (ContainsIgnoringCase(t.title, query)
        || (t.description.Some? && t.description.value != [] && ContainsIgnoringCase(t.description.value, query)))
  }

  function MatchesAll(filter: CompletionFilter, category: String, query: String): Task -> bool {
    (t: Task) => Matches(t, filter, category, query)
  }

  function FilteredTasks(tasks: seq<Task>, filter: CompletionFilter, category: String, query: String)
    : seq<Task>
  {
    Filter(tasks, MatchesAll(filter, category, query))
  }

  /** The view shows exactly the tasks passing all three tests; 'pending'
      keeps exactly the open tasks and 'completed' exactly the done ones; with
      every filter off and an empty query it shows the whole list. */
  lemma FilteredTasksFacts(tasks: seq<Task>, filter: CompletionFilter, category: String, query: String)
    ensures forall t :: t in FilteredTasks(tasks, filter, category, query)
              <==> t in tasks && Matches(t, filter, category, query)
    ensures forall t :: t in FilteredTasks(tasks, PendingOnly, "all", "") <==> t in tasks && !t.completed
    ensures forall t :: t in FilteredTasks(tasks, CompletedOnly, "all", "") <==> t in tasks && t.completed
    ensures FilteredTasks(tasks, AllTasks, "all", "") == tasks
  {
    FilterMembership(tasks, MatchesAll(filter, category, query));
    FilterMembership(tasks, MatchesAll(PendingOnly, "all", ""));
    FilterMembership(tasks, MatchesAll(CompletedOnly, "all", ""));
    forall t: Task ensures ContainsIgnoringCase(t.title, "") {
      ContainsEmpty(Lower(t.title));
    }
    FilterKeepsAll(tasks, MatchesAll(AllTasks, "all", ""));
  }

  predicate IsPending(t: Task) {
    !t.completed
  }

  predicate IsDone(t: Task) {
    t.completed
  }

  predicate IsUrgent(t: Task) {
    t.priority == High && !t.completed
  }

  /** `stats`. */
  datatype Stats = Stats(total: nat, pending: nat, completed: nat, highPriority: nat)

  function TaskStats(tasks: seq<Task>): Stats {
    Stats(|tasks|, |Filter(tasks, IsPending)|, |Filter(tasks, IsDone)|, |Filter(tasks, IsUrgent)|)
  }

  /** Pending and completed split the list, and the high-priority counter
      counts only pending tasks. */
  lemma StatsFacts(tasks: seq<Task>)
    ensures TaskStats(tasks).pending + TaskStats(tasks).completed == TaskStats(tasks).total
    ensures TaskStats(tasks).highPriority <= TaskStats(tasks).pending
  {
    FilterPartition(tasks, IsPending, IsDone);
    FilterMonotone(tasks, IsUrgent, IsPending);
  }

  /** The page's state cells. */
  class TasksPage {
    var tasks: seq<Task>
    var form: TaskForm
    var editing: Option<Task>
    var dialogOpen: bool
    var filter: CompletionFilter
    var categoryFilter: String
    var searchQuery: String

    constructor(initial: seq<Task>)
      ensures tasks == initial && form == EmptyForm && editing == None && !dialogOpen
      ensures filter == AllTasks && categoryFilter == "all" && searchQuery == []
    {
      tasks := initial;
      form := EmptyForm;
      editing := None;
      dialogOpen := false;
      filter := AllTasks;
      categoryFilter := "all";
      searchQuery := [];
    }

    /** The tasks on screen. */
    function Shown(): seq<Task>
      reads this
    {
      FilteredTasks(tasks, filter, categoryFilter, searchQuery)
    }

    method SetFilters(f: CompletionFilter, category: String, query: String)
      modifies this
      ensures filter == f && categoryFilter == category && searchQuery == query
      ensures tasks == old(tasks) && form == old(form) && editing == old(editing)
      ensures dialogOpen == old(dialogOpen)
    {
      filter, categoryFilter, searchQuery := f, category, query;
    }

    /** "Nova Tarefa": no task is being edited and the dialog opens on an
        empty form. */
    method OpenNew()
      modifies this
      ensures editing == None && form == EmptyForm && dialogOpen
      ensures tasks == old(tasks) && filter == old(filter)
      ensures categoryFilter == old(categoryFilter) && searchQuery == old(searchQuery)
    {
      editing := None;
      form := EmptyForm;
      dialogOpen := true;
    }

    /** "Cancelar": the dialog closes; the form and the edited task stay. */
    method CloseDialog()
      modifies this
      ensures !dialogOpen
      ensures tasks == old(tasks) && form == old(form) && editing == old(editing)
      ensures filter == old(filter) && categoryFilter == old(categoryFilter)
      ensures searchQuery == old(searchQuery)
    {
      dialogOpen := false;
    }

    method SetForm(f: TaskForm)
      modifies this
      ensures form == f
      ensures tasks == old(tasks) && editing == old(editing) && dialogOpen == old(dialogOpen)
      ensures filter == old(filter) && categoryFilter == old(categoryFilter)
      ensures searchQuery == old(searchQuery)
    {
      form := f;
    }

    /** `toggleTask`. */
    method ToggleTaskById(id: String)
      modifies this
      ensures tasks == ToggleTask(old(tasks), id)
      ensures form == old(form) && editing == old(editing) && dialogOpen == old(dialogOpen)
      ensures filter == old(filter) && categoryFilter == old(categoryFilter)
      ensures searchQuery == old(searchQuery)
    {
      tasks := ToggleTask(tasks, id);
    }

    /** `deleteTask`. */
    method DeleteTask(id: String)
      modifies this
      ensures tasks == RemoveByKey(old(tasks), TaskId, id)
      ensures form == old(form) && editing == old(editing) && dialogOpen == old(dialogOpen)
      ensures filter == old(filter) && categoryFilter == old(categoryFilter)
      ensures searchQuery == old(searchQuery)
    {
      tasks := RemoveByKey(tasks, TaskId, id);
    }

    /** `editTask`. */
    method EditTask(t: Task)
      modifies this
      ensures editing == Some(t) && form == FormOf(t) && dialogOpen
      ensures tasks == old(tasks) && filter == old(filter)
      ensures categoryFilter == old(categoryFilter) && searchQuery == old(searchQuery)
    {
      editing := Some(t);
      form := FormOf(t);
      dialogOpen := true;
    }

    /** `saveTask`; `newId` is the generated id and `now` the clock reading
        whose UTC date becomes `createdAt`. */
    method SaveTask(newId: String, now: int)
      modifies this
      ensures if CanSave(old(form)) then
                tasks == SavedTasks(old(tasks), old(form), old(editing), newId, FormatDay(DayOf(now)))
                && form == EmptyForm && editing == None && !dialogOpen
              else
                tasks == old(tasks) && form == old(form) && editing == old(editing)
                && dialogOpen == old(dialogOpen)
      ensures filter == old(filter) && categoryFilter == old(categoryFilter)
      ensures searchQuery == old(searchQuery)
    {
      if CanSave(form) {
        tasks := SavedTasks(tasks, form, editing, newId, FormatDay(DayOf(now)));
        form := EmptyForm;
        editing := None;
        dialogOpen := false;
      }
    }
  }
}
