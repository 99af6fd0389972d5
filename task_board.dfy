/** The Task Management screen of src/components: a task list filtered by status
    and by a case-insensitive search, per-task status buttons and a creation form
    that requires a title and a due date. Due dates are the form's `YYYY-MM-DD`
    text and are kept as text. */
module TaskBoard {
  import opened Base
  import opened Text

  datatype TaskStatus = Todo | InProgress | Completed

  datatype Task = Task(
    id: int,
    title: string,
    description: string,
    dueDate: string,
    status: TaskStatus,
    priority: Priority,
    assignedTo: string,
    project: string)

  /** The `newTask` form state; the form has no status input, so its status stays 'todo'. */
  datatype TaskDraft = TaskDraft(
    title: string,
    description: string,
    dueDate: string,
    status: TaskStatus,
    priority: Priority,
    assignedTo: string,
    project: string)

  const EmptyDraft := TaskDraft("", "", "", Todo, Medium, "", "")

  /** The `filter` state: 'all' or one status value. */
  datatype StatusFilter = AllStatuses | OnlyStatus(status: TaskStatus)

  /** `statusOptions`: value and label of each status button. */
  const StatusOptions: seq<(TaskStatus, string)> := [(Todo, "To Do"), (InProgress, "In Progress"), (Completed, "Completed")]

  /** `priorityOptions`: value and label of each priority radio button. */
  const PriorityOptions: seq<(Priority, string)> := [(Low, "Low"), (Medium, "Medium"), (High, "High")]

  /** Each status has exactly one button, so every task can be moved to any status. */
  lemma StatusOptionsCoverStatuses(s: TaskStatus)
    ensures exists i :: 0 <= i < |StatusOptions| && StatusOptions[i].0 == s
    ensures forall i, j :: 0 <= i < j < |StatusOptions| ==> StatusOptions[i].0 != StatusOptions[j].0
  {
    match s
    case Todo => assert StatusOptions[0].0 == s;
    case InProgress => assert StatusOptions[1].0 == s;
    case Completed => assert StatusOptions[2].0 == s;
  }

  /** Each priority has exactly one radio button. */
  lemma PriorityOptionsCoverPriorities(p: Priority)
    ensures exists i :: 0 <= i < |PriorityOptions| && PriorityOptions[i].0 == p
    ensures forall i, j :: 0 <= i < j < |PriorityOptions| ==> PriorityOptions[i].0 != PriorityOptions[j].0
  {
    match p
    case Low => assert PriorityOptions[0].0 == p;
    case Medium => assert PriorityOptions[1].0 == p;
    case High => assert PriorityOptions[2].0 == p;
  }

  predicate MatchesFilter(filter: StatusFilter, t: Task) {
    filter.AllStatuses? || t.status == filter.status
  }

  /** The search term occurs, ignoring case, in the title, the description or the project. */
  predicate MatchesSearch(term: string, t: Task) {
    ContainsIgnoringCase(t.title, term) || ContainsIgnoringCase(t.description, term) ||
    ContainsIgnoringCase(t.project, term)
  }

  function ShownUnder(filter: StatusFilter, term: string): Task -> bool {
    t => MatchesFilter(filter, t) && MatchesSearch(term, t)
  }

  function InStatus(filter: StatusFilter): Task -> bool {
    t => MatchesFilter(filter, t)
  }

  /** `filteredTasks`: exactly the tasks that pass both the status filter and the
      search, in list order. Finance and Customers apply `Filter` in the same way
      to their own records. */
  function FilteredTasks(tasks: seq<Task>, filter: StatusFilter, term: string): (r: seq<Task>)
    ensures forall t :: t in r <==> t in tasks && MatchesFilter(filter, t) && MatchesSearch(term, t)
    ensures IsSubsequence(r, tasks)
    ensures |r| == Count(ShownUnder(filter, term), tasks)
  {
    Filter(ShownUnder(filter, term), tasks)
  }

  /** With an empty search box only the status filter applies. */
  lemma EmptySearchFiltersByStatus(tasks: seq<Task>, filter: StatusFilter)
    ensures FilteredTasks(tasks, filter, "") == Filter(InStatus(filter), tasks)
  {
    forall i | 0 <= i < |tasks|
      ensures ShownUnder(filter, "")(tasks[i]) == InStatus(filter)(tasks[i])
    {
      EmptyTermMatches(tasks[i].title);
    }
    FilterCongruent(ShownUnder(filter, ""), InStatus(filter), tasks);
  }

  /** The initial view, 'all' and no search, shows every task in order. */
  lemma InitialViewShowsAll(tasks: seq<Task>)
    ensures FilteredTasks(tasks, AllStatuses, "") == tasks
  {
    forall i | 0 <= i < |tasks|
      ensures ShownUnder(AllStatuses, "")(tasks[i])
    {
      EmptyTermMatches(tasks[i].title);
    }
    FilterKeepsAll(ShownUnder(AllStatuses, ""), tasks);
  }

  /** The three status views split the list: every task is in exactly one of them. */
  lemma StatusViewsPartition(tasks: seq<Task>, term: string, t: Task)
    requires t in FilteredTasks(tasks, AllStatuses, term)
    ensures t in FilteredTasks(tasks, OnlyStatus(t.status), term)
    ensures forall s :: s != t.status ==> t !in FilteredTasks(tasks, OnlyStatus(s), term)
  {
  }

  /** `tasks.map(task => task.id === taskId ? { ...task, status: newStatus } : task)`. */
  function SetStatus(tasks: seq<Task>, taskId: int, newStatus: TaskStatus): (r: seq<Task>)
    ensures |r| == |tasks|
    ensures forall i :: 0 <= i < |tasks| && tasks[i].id == taskId ==> r[i] == tasks[i].(status := newStatus)
    ensures forall i :: 0 <= i < |tasks| && tasks[i].id != taskId ==> r[i] == tasks[i]
  {
    if tasks == [] then []
    else
      var head := if tasks[0].id == taskId then tasks[0].(status := newStatus) else tasks[0];
      [head] + SetStatus(tasks[1..], taskId, newStatus)
  }

  /** A status change for an id no task has leaves the list as it was. */
  lemma SetStatusUnknownId(tasks: seq<Task>, taskId: int, newStatus: TaskStatus)
    requires forall i :: 0 <= i < |tasks| ==> tasks[i].id != taskId
    ensures SetStatus(tasks, taskId, newStatus) == tasks
  {
  }

  /** Only the status changes: ids, titles and every other field stay as they were. */
  lemma SetStatusKeepsOtherFields(tasks: seq<Task>, taskId: int, newStatus: TaskStatus)
    ensures forall i :: 0 <= i < |tasks| ==>
      SetStatus(tasks, taskId, newStatus)[i].(status := tasks[i].status) == tasks[i]
  {
  }

  /** The last of two changes to the same task wins. */
  lemma SetStatusLastWins(tasks: seq<Task>, taskId: int, first: TaskStatus, second: TaskStatus)
    ensures SetStatus(SetStatus(tasks, taskId, first), taskId, second) == SetStatus(tasks, taskId, second)
  {
    var a := SetStatus(SetStatus(tasks, taskId, first), taskId, second);
    var b := SetStatus(tasks, taskId, second);
    assert forall i :: 0 <= i < |tasks| ==> a[i] == b[i];
  }

  /** Task ids are 1-based positions, so `tasks.length + 1` is always a fresh id.
      (Each screen keeps its own record type, hence its own copy of this shape.) */
  predicate IdsArePositions(tasks: seq<Task>) {
    forall i :: 0 <= i < |tasks| ==> tasks[i].id == i + 1
  }

  const InitialTasks: seq<Task> := [
    Task(1, "Complete quarterly report", "Finalize the Q1 financial report for stakeholders",
      "2025-04-15", InProgress, High, "John Doe", "Finance"),
    Task(2, "Review marketing campaign", "Analyze results of recent social media campaign",
      "2025-04-20", Todo, Medium, "Sarah Smith", "Marketing"),
    Task(3, "Client meeting preparation", "Prepare presentation and talking points for client meeting",
      "2025-04-10", Completed, High, "John Doe", "Sales"),
    Task(4, "Update website content", "Refresh product descriptions and add new testimonials",
      "2025-04-25", Todo, Low, "Sarah Smith", "Marketing"),
    Task(5, "Vendor contract negotiation", "Renegotiate terms with office supply vendor",
      "2025-04-18", Todo, Medium, "John Doe", "Operations")
  ]

  class Board {
    var tasks: seq<Task>
    var filter: StatusFilter
    var searchTerm: string
    var showNewTaskForm: bool
    var newTask: TaskDraft

    constructor()
      ensures tasks == InitialTasks && IdsArePositions(tasks)
      ensures filter == AllStatuses && searchTerm == ""
      ensures !showNewTaskForm && newTask == EmptyDraft
    {
      tasks := InitialTasks;
      filter := AllStatuses;
      searchTerm := "";
      showNewTaskForm := false;
      newTask := EmptyDraft;
    }

    /** `filteredTasks` of the current state. */
    function Visible(): seq<Task>
      reads this
    {
      FilteredTasks(tasks, filter, searchTerm)
    }

    /** The four filter buttons. */
    method SetFilter(f: StatusFilter)
      modifies this`filter
      ensures filter == f
    {
      filter := f;
    }

    /** The search box. */
    method SetSearchTerm(term: string)
      modifies this`searchTerm
      ensures searchTerm == term
    {
      searchTerm := term;
    }

    /** `handleStatusChange`: every task with that id gets the new status, nothing
        else changes. */
    method HandleStatusChange(taskId: int, newStatus: TaskStatus)
      modifies this`tasks
      ensures tasks == SetStatus(old(tasks), taskId, newStatus)
      ensures IdsArePositions(old(tasks)) ==> IdsArePositions(tasks)
    {
      tasks := SetStatus(tasks, taskId, newStatus);
    }

    /** The header button. */
    method ToggleNewTaskForm()
      modifies this`showNewTaskForm
      ensures showNewTaskForm == !old(showNewTaskForm)
    {
      showNewTaskForm := !showNewTaskForm;
    }

    /** "Create a New Task" on the empty-state card. */
    method OpenNewTaskForm()
      modifies this`showNewTaskForm
      ensures showNewTaskForm
    {
      showNewTaskForm := true;
    }

    /** The form's "Cancel" button. */
    method CancelNewTaskForm()
      modifies this`showNewTaskForm
      ensures !showNewTaskForm
    {
      showNewTaskForm := false;
    }

    /** `handleNewTaskSubmit`: nothing happens unless the title and the due date
        are non-empty; otherwise the draft becomes a task with id one past the list
        length, the draft is reset and the form closes. */
    method SubmitNewTask()
      modifies this`tasks, this`newTask, this`showNewTaskForm
      ensures old(newTask).title == "" || old(newTask).dueDate == "" ==>
        tasks == old(tasks) && newTask == old(newTask) && showNewTaskForm == old(showNewTaskForm)
      ensures old(newTask).title != "" && old(newTask).dueDate != "" ==>
        && tasks == old(tasks) + [Task(|old(tasks)| + 1, old(newTask).title, old(newTask).description,
                                       old(newTask).dueDate, old(newTask).status, old(newTask).priority,
                                       old(newTask).assignedTo, old(newTask).project)]
        && newTask == EmptyDraft && !showNewTaskForm
      ensures IdsArePositions(old(tasks)) ==> IdsArePositions(tasks)
    {
      if newTask.title != "" && newTask.dueDate != "" {
        var d := newTask;
        tasks := tasks + [Task(|tasks| + 1, d.title, d.description, d.dueDate, d.status, d.priority,
                               d.assignedTo, d.project)];
        newTask := EmptyDraft;
        showNewTaskForm := false;
      }
    }
  }
}
