/** The goals page: a list of goals with a three-state status, progress
    towards a target value, the goal dialog's create and edit, the status
    toggle, the filtered view and the counters. Goal values are `real`. */
module Goals {
  import opened Wrappers
  import opened Seqs
  import opened Text
  import opened Dates

  datatype Status = Active | Completed | Paused
  datatype Priority = Low | Medium | High

  datatype Goal = Goal(
    id: String,
    title: String,
    description: Option<String>,
    category: String,
    targetValue: real,
    currentValue: real,
    unit: String,
    deadline: String,
    priority: Priority,
    status: Status,
    createdAt: String)

  datatype GoalForm = GoalForm(
    title: String,
    description: String,
    category: String,
    targetValue: real,
    currentValue: real,
    unit: String,
    deadline: String,
    priority: Priority)

  /** The form after a save or on first opening. */
  const EmptyForm := GoalForm("", "", "Pessoal", 1.0, 0.0, "", "", Medium)

  function GoalId(g: Goal): String {
    g.id
  }

  // ---------------------------------------------------------------------
  // Progress

  /** The value of `Math.min((current / target) * 100, 100)`: a finite
      percentage, or the NaN and -Infinity a zero target can give. */
  datatype Progress = Finite(percent: real) | NotANumber | MinusInfinity

  /** `calculateProgress`. A zero target divides by zero: a positive current
      value gives Infinity, capped to 100; zero gives NaN; a negative one
      gives -Infinity. */
  function CalculateProgress(current: real, target: real): (p: Progress)
    ensures p.Finite? ==> p.percent <= 100.0
    ensures p.Finite? <==> target != 0.0 || current > 0.0
    ensures p == NotANumber <==> target == 0.0 && current == 0.0
    ensures target > 0.0 && current >= target ==> p == Finite(100.0)
    ensures target > 0.0 && 0.0 <= current < target ==> p.Finite? && 0.0 <= p.percent < 100.0
  {
    if target == 0.0 then
      if current > 0.0 then Finite(100.0)
      else if current == 0.0 then NotANumber
      else MinusInfinity
    else
      var ratio := current / target * 100.0;
      assert target > 0.0 && current >= target ==> ratio >= 100.0 by {
        if target > 0.0 && current >= target {
          var q := current / target;
          assert q * target == current;
        }
      }
      Finite(if ratio < 100.0 then ratio else 100.0)
  }

  /** With a positive target, more progress never shows as less. */
  lemma ProgressMonotone(c1: real, c2: real, target: real)
    requires target > 0.0 && c1 <= c2
    ensures CalculateProgress(c1, target).percent <= CalculateProgress(c2, target).percent
  {
    assert c1 / target <= c2 / target by {
      assert c2 / target - c1 / target == (c2 - c1) / target;
    }
  }

  // ---------------------------------------------------------------------
  // Status

  /** `toggleGoalStatus`'s transition. */
  function NextStatus(s: Status): (r: Status)
    ensures r != Completed
    ensures s == Active <==> r == Paused
  {
    match s
    case Active => Paused
    case Paused => Active
    case Completed => Active
  }

  function Toggled(g: Goal): Goal {
    g.(status := NextStatus(g.status))
  }

  /** The list after `toggleGoalStatus(id)`. */
  function ToggleStatus(goals: seq<Goal>, id: String): seq<Goal> {
    MapByKey(goals, GoalId, id, Toggled)
  }

  /** Toggling changes the status of the goals with that id and nothing else;
      a paused or active goal toggles back, while a completed goal becomes
      active and then paused, never completed again. */
  lemma ToggleStatusFacts(goals: seq<Goal>, id: String)
    ensures var r := ToggleStatus(goals, id);
            |r| == |goals|
            && (forall i :: 0 <= i < |goals| && goals[i].id == id ==>
                  r[i] == goals[i].(status := NextStatus(goals[i].status)))
            && (forall i :: 0 <= i < |goals| && goals[i].id != id ==> r[i] == goals[i])
    ensures (forall i :: 0 <= i < |goals| && goals[i].id == id ==> goals[i].status != Completed)
            ==> ToggleStatus(ToggleStatus(goals, id), id) == goals
    ensures forall i :: 0 <= i < |goals| && goals[i].id == id && goals[i].status == Completed ==>
              ToggleStatus(ToggleStatus(goals, id), id)[i].status == Paused
  {
    var r := ToggleStatus(goals, id);
    var rr := ToggleStatus(r, id);
    if forall i :: 0 <= i < |goals| && goals[i].id == id ==> goals[i].status != Completed {
      forall i | 0 <= i < |goals| ensures rr[i] == goals[i] {
        if goals[i].id == id {
          assert r[i] == Toggled(goals[i]);
        }
      }
    }
  }

  /** `updateProgress`'s change to one goal. */
  function WithProgress(v: real): Goal -> Goal {
    (g: Goal) => g.(currentValue := v, status := if v >= g.targetValue then Completed else g.status)
  }

  /** The list after `updateProgress(id, v)`. */
  function UpdateProgress(goals: seq<Goal>, id: String, v: real): seq<Goal> {
    MapByKey(goals, GoalId, id, WithProgress(v))
  }

  /** Updating sets the value of the goals with that id; their status becomes
      completed when the value reaches the target and stays as it was
      otherwise, so a completed goal stays completed when its value drops.
      A goal completed this way with a positive target shows 100%. */
  lemma UpdateProgressFacts(goals: seq<Goal>, id: String, v: real)
    ensures var r := UpdateProgress(goals, id, v);
            |r| == |goals|
            && (forall i :: 0 <= i < |goals| && goals[i].id == id ==>
                  r[i] == goals[i].(currentValue := v, status := r[i].status)
                  && r[i].id == id && r[i].currentValue == v
                  && r[i].targetValue == goals[i].targetValue
                  && (r[i].status == Completed <==> v >= goals[i].targetValue || goals[i].status == Completed)
                  && (v < goals[i].targetValue ==> r[i].status == goals[i].status))
            && (forall i :: 0 <= i < |goals| && goals[i].id != id ==> r[i] == goals[i])
    ensures forall i :: (0 <= i < |goals| && goals[i].id == id && goals[i].targetValue > 0.0
                         && v >= goals[i].targetValue) ==>
              CalculateProgress(UpdateProgress(goals, id, v)[i].currentValue,
                                UpdateProgress(goals, id, v)[i].targetValue) == Finite(100.0)
  {
  }

  // ---------------------------------------------------------------------
  // Save and edit

  /** `saveGoal`'s guard. */
  predicate CanSave(f: GoalForm) {
    !IsBlank(f.title) && !IsBlank(f.unit) && f.deadline != []
  }

  /** The edit branch: the form replaces every field but id, status and
      creation date. */
  function ApplyForm(f: GoalForm): Goal -> Goal {
    (g: Goal) => g.(title := f.title, description := Some(f.description), category := f.category,
                    targetValue := f.targetValue, currentValue := f.currentValue, unit := f.unit,
                    deadline := f.deadline, priority := f.priority)
  }

  /** The create branch: a new goal is active, whatever its values, and dated today. */
  function NewGoal(id: String, f: GoalForm, today: String): Goal {
    Goal(id, f.title, Some(f.description), f.category, f.targetValue, f.currentValue, f.unit,
         f.deadline, f.priority, Active, today)
  }

  function SavedGoals(goals: seq<Goal>, f: GoalForm, editing: Option<Goal>, id: String, today: String)
    : seq<Goal>
  {
    if editing.Some? then MapByKey(goals, GoalId, editing.value.id, ApplyForm(f))
    else goals + [NewGoal(id, f, today)]
  }

  /** An edited goal is the goal the form would create under its own id and
      creation date, with its status kept; other goals are unchanged. A new
      goal is appended, active and dated today. */
  lemma SavedGoalsFacts(goals: seq<Goal>, f: GoalForm, editing: Option<Goal>, id: String, today: String)
    ensures var r := SavedGoals(goals, f, editing, id, today);
            if editing.Some? then
              |r| == |goals|
              && (forall i :: 0 <= i < |goals| && goals[i].id == editing.value.id ==>
                    r[i] == NewGoal(goals[i].id, f, goals[i].createdAt).(status := goals[i].status))
              && (forall i :: 0 <= i < |goals| && goals[i].id != editing.value.id ==> r[i] == goals[i])
            else
              r[..|goals|] == goals && |r| == |goals| + 1 && r[|goals|] == NewGoal(id, f, today)
              && r[|goals|].status == Active && r[|goals|].createdAt == today
  {
    if editing.None? {
      assert (goals + [NewGoal(id, f, today)])[..|goals|] == goals;
    }
  }

  /** `editGoal`: an absent description shows as "". */
  function FormOf(g: Goal): GoalForm {
    GoalForm(g.title, g.description.UnwrapOr(""), g.category, g.targetValue, g.currentValue,
             g.unit, g.deadline, g.priority)
  }

  /** Opening a goal and saving it untouched gives it back, with an absent
      description turned into "". */
  lemma EditThenSave(g: Goal)
    ensures ApplyForm(FormOf(g))(g) == g.(description := Some(g.description.UnwrapOr("")))
  {
  }

  // ---------------------------------------------------------------------
  // Filtering and counting

  datatype StatusFilter = AnyStatus | OnlyStatus(status: Status)

  /** The three tests of `filteredGoals`: status ('all' passes every goal),
      category (the string "all" passes every goal) and a case-insensitive
      search in the title or a non-empty description (the empty query passes
      every goal). */
  predicate Matches(g: Goal, status: StatusFilter, category: String, query: String) {
    (status.AnyStatus? || g.status == status.status)
    && (category == "all" || g.category == category)
    && (query == []
        || ContainsIgnoringCase(g.title, query)
        || (g.description.Some? && g.description.value != [] && ContainsIgnoringCase(g.description.value, query)))
  }

  function MatchesAll(status: StatusFilter, category: String, query: String): Goal -> bool {
    (g: Goal) => Matches(g, status, category, query)
  }

  function FilteredGoals(goals: seq<Goal>, status: StatusFilter, category: String, query: String): seq<Goal> {
    Filter(goals, MatchesAll(status, category, query))
  }

  /** The view shows exactly the goals passing all three tests, and with every
      filter off it shows the whole list. */
  lemma FilteredGoalsFacts(goals: seq<Goal>, status: StatusFilter, category: String, query: String)
    ensures forall g :: g in FilteredGoals(goals, status, category, query) <==> g in goals && Matches(g, status, category, query)
    ensures FilteredGoals(goals, AnyStatus, "all", "") == goals
  {
    FilterMembership(goals, MatchesAll(status, category, query));
    FilterKeepsAll(goals, MatchesAll(AnyStatus, "all", ""));
  }

  /** A non-empty query matches a goal that has it in its title regardless of
      letter case. */
  lemma SearchIsCaseBlind(g: Goal, query: String)
    requires ContainsIgnoringCase(g.title, Upper(query))
    ensures Matches(g, AnyStatus, "all", query)
  {
    ContainsIgnoringCaseIsCaseBlind(g.title, query);
  }

  function HasStatus(s: Status): Goal -> bool {
    (g: Goal) => g.status == s
  }

  /** `stats`: total, active and completed counts. */
  datatype Stats = Stats(total: nat, active: nat, completed: nat)

  function GoalStats(goals: seq<Goal>): Stats {
    Stats(|goals|, |Filter(goals, HasStatus(Active))|, |Filter(goals, HasStatus(Completed))|)
  }

  /** Every goal has exactly one status, so the three counts add up to the
      total; paused goals are in neither displayed counter. */
  lemma {:induction false} StatusCounts(goals: seq<Goal>)
    ensures GoalStats(goals).active + GoalStats(goals).completed + |Filter(goals, HasStatus(Paused))|
            == GoalStats(goals).total
    ensures GoalStats(goals).active + GoalStats(goals).completed <= GoalStats(goals).total
  {
    if goals != [] {
      StatusCounts(goals[1..]);
    }
  }

  /** The page's state cells. */
  class GoalsPage {
    var goals: seq<Goal>
    var form: GoalForm
    var editing: Option<Goal>
    var dialogOpen: bool
    var statusFilter: StatusFilter
    var categoryFilter: String
    var searchQuery: String

    constructor(initial: seq<Goal>)
      ensures goals == initial && form == EmptyForm && editing == None && !dialogOpen
      ensures statusFilter == AnyStatus && categoryFilter == "all" && searchQuery == []
    {
      goals := initial;
      form := EmptyForm;
      editing := None;
      dialogOpen := false;
      statusFilter := AnyStatus;
      categoryFilter := "all";
      searchQuery := [];
    }

    /** The goals on screen. */
    function Shown(): seq<Goal>
      reads this
    {
      FilteredGoals(goals, statusFilter, categoryFilter, searchQuery)
    }

    /** The search box and the two selects. */
    method SetFilters(status: StatusFilter, category: String, query: String)
      modifies this
      ensures statusFilter == status && categoryFilter == category && searchQuery == query
      ensures goals == old(goals) && form == old(form) && editing == old(editing)
      ensures dialogOpen == old(dialogOpen)
    {
      statusFilter, categoryFilter, searchQuery := status, category, query;
    }

    /** "Nova Meta": no goal is being edited and the dialog opens on an
        empty form. */
    method OpenNew()
      modifies this
      ensures editing == None && form == EmptyForm && dialogOpen
      ensures goals == old(goals) && statusFilter == old(statusFilter)
      ensures categoryFilter == old(categoryFilter) && searchQuery == old(searchQuery)
    {
      editing := None;
      form := EmptyForm;
      dialogOpen := true;
    }

    /** "Criar Meta", shown when nothing matches: the dialog opens as it
        was left, so after an edit was cancelled it reopens on that goal. */
    method OpenDialog()
      modifies this
      ensures dialogOpen
      ensures goals == old(goals) && form == old(form) && editing == old(editing)
      ensures statusFilter == old(statusFilter) && categoryFilter == old(categoryFilter)
      ensures searchQuery == old(searchQuery)
    {
      dialogOpen := true;
    }

    /** "Cancelar": the dialog closes; the form and the edited goal stay. */
    method CloseDialog()
      modifies this
      ensures !dialogOpen
      ensures goals == old(goals) && form == old(form) && editing == old(editing)
      ensures statusFilter == old(statusFilter) && categoryFilter == old(categoryFilter)
      ensures searchQuery == old(searchQuery)
    {
      dialogOpen := false;
    }

    method SetForm(f: GoalForm)
      modifies this
      ensures form == f
      ensures goals == old(goals) && editing == old(editing) && dialogOpen == old(dialogOpen)
      ensures statusFilter == old(statusFilter) && categoryFilter == old(categoryFilter)
      ensures searchQuery == old(searchQuery)
    {
      form := f;
    }

    /** `saveGoal`; `newId` is the generated id and `now` the clock reading
        whose UTC date becomes `createdAt`. */
    method SaveGoal(newId: String, now: int)
      modifies this
      ensures if CanSave(old(form)) then
                goals == SavedGoals(old(goals), old(form), old(editing), newId, FormatDay(DayOf(now)))
                && form == EmptyForm && editing == None && !dialogOpen
              else
                goals == old(goals) && form == old(form) && editing == old(editing)
                && dialogOpen == old(dialogOpen)
      ensures statusFilter == old(statusFilter) && categoryFilter == old(categoryFilter)
      ensures searchQuery == old(searchQuery)
    {
      if CanSave(form) {
        goals := SavedGoals(goals, form, editing, newId, FormatDay(DayOf(now)));
        form := EmptyForm;
        editing := None;
        dialogOpen := false;
      }
    }

    /** `editGoal`. */
    method EditGoal(g: Goal)
      modifies this
      ensures editing == Some(g) && form == FormOf(g) && dialogOpen
      ensures goals == old(goals) && statusFilter == old(statusFilter)
      ensures categoryFilter == old(categoryFilter) && searchQuery == old(searchQuery)
    {
      editing := Some(g);
      form := FormOf(g);
      dialogOpen := true;
    }

    /** `updateProgress`. */
    method UpdateGoalProgress(id: String, v: real)
      modifies this
      ensures goals == UpdateProgress(old(goals), id, v)
      ensures form == old(form) && editing == old(editing) && dialogOpen == old(dialogOpen)
      ensures statusFilter == old(statusFilter) && categoryFilter == old(categoryFilter)
      ensures searchQuery == old(searchQuery)
    {
      goals := UpdateProgress(goals, id, v);
    }

    /** `deleteGoal`. */
    method DeleteGoal(id: String)
      modifies this
      ensures goals == RemoveByKey(old(goals), GoalId, id)
      ensures form == old(form) && editing == old(editing) && dialogOpen == old(dialogOpen)
      ensures statusFilter == old(statusFilter) && categoryFilter == old(categoryFilter)
      ensures searchQuery == old(searchQuery)
    {
      goals := RemoveByKey(goals, GoalId, id);
    }

    /** `toggleGoalStatus`. */
    method ToggleGoalStatus(id: String)
      modifies this
      ensures goals == ToggleStatus(old(goals), id)
      ensures form == old(form) && editing == old(editing) && dialogOpen == old(dialogOpen)
      ensures statusFilter == old(statusFilter) && categoryFilter == old(categoryFilter)
      ensures searchQuery == old(searchQuery)
    {
      goals := ToggleStatus(goals, id);
    }
  }
}
