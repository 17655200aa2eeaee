/** The dashboard's task list widget: a fixed list of tasks split into
    pending and completed, with a checkbox that toggles a task. */
module TaskList {
  import opened Seqs
  import opened Text

  /** A widget task; `priority` is the raw string, so unknown values reach
      the fallbacks. */
  datatype Task = Task(id: String, title: String, completed: bool, priority: String, dueDate: String)

  function TaskId(t: Task): String {
    t.id
  }

  function Toggled(t: Task): Task {
    t.(completed := !t.completed)
  }

  /** The list after `toggleTask(id)`. */
  function ToggleTask(tasks: seq<Task>, id: String): seq<Task> {
    MapByKey(tasks, TaskId, id, Toggled)
  }

  predicate IsPending(t: Task) {
    !t.completed
  }

  predicate IsDone(t: Task) {
    t.completed
  }

  /** `pendingTasks`. */
  function Pending(tasks: seq<Task>): seq<Task> {
    Filter(tasks, IsPending)
  }

  /** `completedTasks`. */
  function Completed(tasks: seq<Task>): seq<Task> {
    Filter(tasks, IsDone)
  }

  /** The two sections split the list: no task is in both, every task is in
      one, and their sizes add up to the number of tasks. */
  lemma PartitionFacts(tasks: seq<Task>)
    ensures forall t :: t in tasks <==> t in Pending(tasks) || t in Completed(tasks)
    ensures forall t :: !(t in Pending(tasks) && t in Completed(tasks))
    ensures |Pending(tasks)| + |Completed(tasks)| == |tasks|
  {
    FilterMembership(tasks, IsPending);
    FilterMembership(tasks, IsDone);
    FilterPartition(tasks, IsPending, IsDone);
  }

  /** Toggling flips `completed` on the tasks with that id and changes nothing
      else, so a toggled task moves to the other section. */
  lemma ToggleMoves(tasks: seq<Task>, id: String)
    ensures var r := ToggleTask(tasks, id);
            |r| == |tasks|
            && (forall i :: 0 <= i < |tasks| && tasks[i].id == id ==>
                  r[i] == tasks[i].(completed := !tasks[i].completed)
                  && (r[i] in Completed(r) <==> tasks[i] in Pending(tasks))
                  && (r[i] in Pending(r) <==> tasks[i] in Completed(tasks)))
            && (forall i :: 0 <= i < |tasks| && tasks[i].id != id ==> r[i] == tasks[i])
  {
    var r := ToggleTask(tasks, id);
    FilterMembership(tasks, IsPending);
    FilterMembership(tasks, IsDone);
    FilterMembership(r, IsPending);
    FilterMembership(r, IsDone);
  }

  datatype Tone = Red | Yellow | Green | Gray

  /** `getPriorityColor`: gray for any priority other than the three known. */
  function PriorityColor(priority: String): (c: Tone)
    ensures c == Gray <==> priority != "high" && priority != "medium" && priority != "low"
  {
    if priority == "high" then Red
    else if priority == "medium" then Yellow
    else if priority == "low" then Green
    else Gray
  }

  /** The priority badge's text: anything but "high" and "medium" reads "Baixa". */
  function PriorityLabel(priority: String): (s: String)
    ensures s == "Baixa" <==> priority != "high" && priority != "medium"
  {
    if priority == "high" then "Alta" else if priority == "medium" then "Média" else "Baixa"
  }

  /** The widget's state cell. */
  class TaskListWidget {
    var tasks: seq<Task>

    constructor(sample: seq<Task>)
      ensures tasks == sample
    {
      tasks := sample;
    }

    /** `toggleTask`, fired by a task's checkbox. */
    method ToggleTaskById(id: String)
      modifies this
      ensures tasks == ToggleTask(old(tasks), id)
    {
      tasks := ToggleTask(tasks, id);
    }
  }
}
