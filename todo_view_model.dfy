/**
 * The view-state aggregator. Each snapshot of the screen state is computed
 * from the store: four quadrant buckets in enum order. The search query, the
 * show-completed flag, the selected due date and the error message are fields
 * the view model assigns.
 */
module ViewModel {
  import opened Wrappers
  import opened Text
  import opened Seqs
  import opened TodoModel
  import opened Data
  import opened Dao
  import opened Repository

  /** The screen state: the buckets, a loading flag and an optional error message. */
  datatype TodoUiState = TodoUiState(
    quadrants: seq<QuadrantState> := [],
    isLoading: bool := false,
    error: Option<string> := None)

  /** The state shown before the first snapshot is available. */
  const InitialUiState: TodoUiState := TodoUiState(isLoading := true)

  /** Before the first snapshot the screen is loading and shows no buckets. */
  lemma InitialUiStateLoading()
    ensures InitialUiState.isLoading && InitialUiState.quadrants == [] && InitialUiState.error == None
  {
  }

  /** `getQuadrantTitle`: the fixed heading of each quadrant. */
  function GetQuadrantTitle(q: Quadrant): (r: string)
    ensures q == UrgentImportant ==> r == "Do First"
    ensures q == NotUrgentImportant ==> r == "Schedule"
    ensures q == UrgentNotImportant ==> r == "Delegate"
    ensures q == NotUrgentNotImportant ==> r == "Eliminate"
  {
    match q
    case UrgentImportant => "Do First"
    case NotUrgentImportant => "Schedule"
    case UrgentNotImportant => "Delegate"
    case NotUrgentNotImportant => "Eliminate"
  }

  /** No two quadrants share a heading. */
  lemma GetQuadrantTitleInjective(p: Quadrant, q: Quadrant)
    ensures GetQuadrantTitle(p) == GetQuadrantTitle(q) ==> p == q
  {
  }

  /** The bucket of quadrant `q` over the given table. */
  function Bucket(rows: seq<TodoEntity>, q: Quadrant): (b: QuadrantState)
    ensures b.quadrant == q && b.title == GetQuadrantTitle(q)
    ensures forall t :: t in b.todos <==> FromTodo(t) in rows && t.quadrant == q
    ensures multiset(Stored(b.todos)) == multiset(Filter(rows, InQuadrant(q)))
    ensures forall i, j :: 0 <= i < j < |b.todos| ==> b.todos[i].createdAt >= b.todos[j].createdAt
  {
    var listed := ByQuadrant(rows, q);
    ToTodosMembers(listed);
    StoredToTodos(listed);
    QuadrantState(q, GetQuadrantTitle(q), ToTodos(listed))
  }

  /**
   * The `combine` step: one bucket per quadrant, in enum order, each holding
   * the repository's listing for it. The search query and the show-completed
   * flag are not inputs, so the buckets are neither searched nor filtered.
   */
  function Snapshot(rows: seq<TodoEntity>): (s: TodoUiState)
    ensures |s.quadrants| == |AllQuadrants| == 4
    ensures forall i :: 0 <= i < 4 ==>
      && s.quadrants[i].quadrant == AllQuadrants[i]
      && s.quadrants[i].title == GetQuadrantTitle(AllQuadrants[i])
      && s.quadrants[i].todos == ToTodos(ByQuadrant(rows, AllQuadrants[i]))
    ensures !s.isLoading && s.error == None
  {
    TodoUiState(
      quadrants := [Bucket(rows, UrgentImportant), Bucket(rows, NotUrgentImportant),
                    Bucket(rows, UrgentNotImportant), Bucket(rows, NotUrgentNotImportant)],
      isLoading := false)
  }

  /** Every stored todo shows up in the bucket of its quadrant and in no other. */
  lemma {:induction false} SnapshotPlacesEachTodo(rows: seq<TodoEntity>, e: TodoEntity, i: int)
    requires e in rows && 0 <= i < 4
    ensures e.ToTodo() in Snapshot(rows).quadrants[i].todos <==> e.quadrant == AllQuadrants[i]
  {
    var q := AllQuadrants[i];
    var listed := ByQuadrant(rows, q);
    if e.quadrant == q {
      var k :| 0 <= k < |listed| && listed[k] == e;
      assert ToTodos(listed)[k] == e.ToTodo();
    }
    if e.ToTodo() in ToTodos(listed) {
      var k :| 0 <= k < |listed| && ToTodos(listed)[k] == e.ToTodo();
      assert FromTodo(e.ToTodo()) == e;
      assert listed[k] == e;
    }
  }

  /** The user-facing message for a failure (`updateErrorState`). */
  function ErrorMessage(f: Fault): (r: string)
    ensures f.Domain? ==> r == f.error.Message()
    ensures f.StorageFault? ==> r == "An unexpected error occurred"
  {
    match f
    case Domain(EmptyTitle) => "Title cannot be empty"
    case Domain(TodoNotFound) => "Todo not found"
    case Domain(InvalidQuadrant) => "Invalid quadrant"
    case StorageFault => "An unexpected error occurred"
  }

  /** Different failures give different messages. */
  lemma ErrorMessageInjective(f: Fault, g: Fault)
    ensures ErrorMessage(f) == ErrorMessage(g) ==> f == g
  {
  }

  /** The view model. */
  class TodoViewModel {
    const repository: TodoRepositoryImpl
    var searchQuery: string
    var selectedDueDate: Option<Long>
    var showCompleted: bool
    var error: Option<string>

    ghost predicate Valid()
      reads repository.dao
    {
      repository.Valid()
    }

    constructor (repository: TodoRepositoryImpl)
      ensures this.repository == repository
      ensures searchQuery == "" && selectedDueDate == None && showCompleted && error == None
    {
      this.repository := repository;
      searchQuery := "";
      selectedDueDate := None;
      showCompleted := true;
      error := None;
    }

    /** The current screen state: the snapshot of the store, with the view model's error. */
    function UiState(): (s: TodoUiState)
      reads this, repository.dao
      ensures s.quadrants == Snapshot(repository.dao.rows).quadrants
      ensures !s.isLoading && s.error == error
    {
      Snapshot(repository.dao.rows).(error := error)
    }

    method SetSearchQuery(query: string)
      modifies this
      ensures searchQuery == query
      ensures selectedDueDate == old(selectedDueDate) && showCompleted == old(showCompleted) && error == old(error)
    {
      searchQuery := query;
    }

    method SetSelectedDueDate(timestamp: Option<Long>)
      modifies this
      ensures selectedDueDate == timestamp
      ensures searchQuery == old(searchQuery) && showCompleted == old(showCompleted) && error == old(error)
    {
      selectedDueDate := timestamp;
    }

    method ToggleShowCompleted()
      modifies this
      ensures showCompleted == !old(showCompleted)
      ensures searchQuery == old(searchQuery) && selectedDueDate == old(selectedDueDate) && error == old(error)
    {
      showCompleted := !showCompleted;
    }

    /** `clearError`: drops the message and nothing else. */
    method ClearError()
      modifies this
      ensures error == None
      ensures searchQuery == old(searchQuery) && selectedDueDate == old(selectedDueDate)
      ensures showCompleted == old(showCompleted)
    {
      error := None;
    }

    /** Records a repository failure as the message shown to the user. */
    method UpdateErrorState(f: Fault)
      modifies this
      ensures error == Some(ErrorMessage(f))
      ensures searchQuery == old(searchQuery) && selectedDueDate == old(selectedDueDate)
      ensures showCompleted == old(showCompleted)
    {
      error := Some(ErrorMessage(f));
    }

    /** `addTodo`, with no due date and priority 2 unless given. */
    method AddTodo(
      title: string, description: string, quadrant: Quadrant, id: string, now: Long,
      dueDate: Option<Long> := None, priority: Int := 2)
      requires Valid()
      modifies this, repository.dao
      ensures Valid()
      ensures IsBlank(title) ==> error == Some("Title cannot be empty") && repository.dao.rows == old(repository.dao.rows)
      ensures !IsBlank(title) ==>
        && error == old(error)
        && repository.dao.Table() == old(repository.dao.Table())[id :=
             FromTodo(Todo(id, Trim(title), Trim(description), false, quadrant, now, dueDate, priority))]
      ensures searchQuery == old(searchQuery) && showCompleted == old(showCompleted)
      ensures selectedDueDate == old(selectedDueDate)
    {
      var r := repository.AddTodo(title, description, quadrant, id, now, dueDate, priority);
      if r.Failure? {
        UpdateErrorState(r.error);
      }
    }

    method ToggleTodoCompletion(id: string)
      requires Valid()
      modifies this, repository.dao
      ensures Valid()
      ensures repository.dao.rows == ToggleRows(old(repository.dao.rows), id)
      ensures repository.dao.Table() ==
        if id in old(repository.dao.Table())
        then old(repository.dao.Table())[id := Toggled(old(repository.dao.Table())[id])]
        else old(repository.dao.Table())
      ensures error == if id in old(repository.dao.Table()) then old(error) else Some("Todo not found")
      ensures searchQuery == old(searchQuery) && showCompleted == old(showCompleted)
      ensures selectedDueDate == old(selectedDueDate)
    {
      var r := repository.ToggleTodoCompletion(id);
      if r.Failure? {
        UpdateErrorState(r.error);
      }
    }

    method MoveTodoToQuadrant(id: string, newQuadrant: Quadrant)
      requires Valid()
      modifies this, repository.dao
      ensures Valid()
      ensures repository.dao.rows == MoveRows(old(repository.dao.rows), id, newQuadrant)
      ensures repository.dao.Table() ==
        if id in old(repository.dao.Table())
        then old(repository.dao.Table())[id := Moved(old(repository.dao.Table())[id], newQuadrant)]
        else old(repository.dao.Table())
      ensures error == if id in old(repository.dao.Table()) then old(error) else Some("Todo not found")
      ensures searchQuery == old(searchQuery) && showCompleted == old(showCompleted)
      ensures selectedDueDate == old(selectedDueDate)
    {
      var r := repository.MoveTodoToQuadrant(id, newQuadrant);
      if r.Failure? {
        UpdateErrorState(r.error);
      }
    }

    method DeleteTodo(id: string)
      requires Valid()
      modifies this, repository.dao
      ensures Valid()
      ensures repository.dao.Table() == old(repository.dao.Table()) - {id}
      ensures error == if id in old(repository.dao.Table()) then old(error) else Some("Todo not found")
      ensures searchQuery == old(searchQuery) && showCompleted == old(showCompleted)
      ensures selectedDueDate == old(selectedDueDate)
    {
      var r := repository.DeleteTodo(id);
      if r.Failure? {
        UpdateErrorState(r.error);
      }
    }

    method ClearCompletedTodos()
      requires Valid()
      modifies this, repository.dao
      ensures Valid()
      ensures repository.dao.Table() == IncompleteOnly(old(repository.dao.Table()))
      ensures error == old(error)
      ensures searchQuery == old(searchQuery) && showCompleted == old(showCompleted)
      ensures selectedDueDate == old(selectedDueDate)
    {
      // The model's store never faults, so this call always succeeds and the
      // source's `onFailure` handler has nothing to report.
      var _ := repository.ClearCompletedTodos();
    }

    /** `searchTodos`: the repository's search for the current query. */
    function SearchTodos(): (r: seq<Todo>)
      reads this, repository.dao
      ensures forall t :: t in r <==>
        FromTodo(t) in repository.dao.rows && (Contains(t.title, searchQuery) || Contains(t.description, searchQuery))
      ensures multiset(Stored(r)) <= multiset(repository.dao.rows)
    {
      repository.SearchTodos(searchQuery)
    }

    /** `getUpcomingTodos`, with the current time passed in. */
    function GetUpcomingTodos(now: Long): (r: seq<Todo>)
      reads repository.dao
      ensures forall t :: t in r <==> FromTodo(t) in repository.dao.rows && t.dueDate.Some? && t.dueDate.value > now
      ensures forall i, j :: 0 <= i < j < |r| ==> r[i].dueDate.Some? && r[i].dueDate.value <= r[j].dueDate.value
      ensures multiset(Stored(r)) == multiset(Filter(repository.dao.rows, DueAfter(now)))
    {
      repository.GetUpcomingTodos(now)
    }
  }

  /** Toggling the show-completed flag twice restores it. */
  method ToggleShowCompletedTwice(vm: TodoViewModel)
    modifies vm
    ensures vm.showCompleted == old(vm.showCompleted)
  {
    vm.ToggleShowCompleted();
    vm.ToggleShowCompleted();
  }
}
