/**
 * The domain model of the Eisenhower-matrix todo app: quadrants, priorities,
 * the todo record, its validating factory, the per-quadrant view bucket and
 * the error taxonomy.
 */
module TodoModel {
  import opened Wrappers
  import opened Text

  /** Kotlin's `Long`, the type of timestamps. */
  type Long = x: int | -0x8000_0000_0000_0000 <= x <= 0x7FFF_FFFF_FFFF_FFFF

  /** Kotlin's `Int`, the type of a todo's priority. */
  type Int = x: int | -0x8000_0000 <= x <= 0x7FFF_FFFF

  /** The four quadrants of the Eisenhower matrix; there is no "unassigned" quadrant. */
  datatype Quadrant =
    | UrgentImportant        // Do First
    | NotUrgentImportant     // Schedule
    | UrgentNotImportant     // Delegate
    | NotUrgentNotImportant  // Eliminate
  {
    /** The enum constant's `name`, as the store persists it. */
    function Name(): (r: string)
      ensures this == UrgentImportant ==> r == "URGENT_IMPORTANT"
      ensures this == NotUrgentImportant ==> r == "NOT_URGENT_IMPORTANT"
      ensures this == UrgentNotImportant ==> r == "URGENT_NOT_IMPORTANT"
      ensures this == NotUrgentNotImportant ==> r == "NOT_URGENT_NOT_IMPORTANT"
    {
      match this
      case UrgentImportant => "URGENT_IMPORTANT"
      case NotUrgentImportant => "NOT_URGENT_IMPORTANT"
      case UrgentNotImportant => "URGENT_NOT_IMPORTANT"
      case NotUrgentNotImportant => "NOT_URGENT_NOT_IMPORTANT"
    }
  }

  /** `EisenhowerQuadrant.values()`, in declaration order. */
  const AllQuadrants: seq<Quadrant> :=
    [UrgentImportant, NotUrgentImportant, UrgentNotImportant, NotUrgentNotImportant]

  /** The enum lists every quadrant exactly once, four in all. */
  lemma AllQuadrantsComplete(q: Quadrant)
    ensures |AllQuadrants| == 4
    ensures q in AllQuadrants
    ensures forall i, j :: 0 <= i < j < |AllQuadrants| ==> AllQuadrants[i] != AllQuadrants[j]
  {
  }

  /** The three priority levels and their stored integer values. */
  datatype Priority = Low | Medium | High {
    function Value(): (r: Int)
      ensures 1 <= r <= 3
    {
      match this
      case Low => 1
      case Medium => 2
      case High => 3
    }
  }

  /** LOW=1 < MEDIUM=2 < HIGH=3: the values are distinct and ordered. */
  lemma PriorityValuesOrdered()
    ensures Low.Value() == 1 && Medium.Value() == 2 && High.Value() == 3
    ensures Low.Value() < Medium.Value() < High.Value()
  {
  }

  /**
   * A todo item. The constructor's defaults follow the Kotlin data class;
   * the defaulted `id` (a random UUID) and `createdAt` (the wall clock) are
   * supplied by the caller instead.
   */
  datatype Todo = Todo(
    id: string,
    title: string,
    description: string := "",
    isCompleted: bool := false,
    quadrant: Quadrant,
    createdAt: Long,
    dueDate: Option<Long> := None,
    priority: Int := Medium.Value())

  /**
   * `Todo.createTodo`: rejects a blank title (`None` stands for the failed
   * `require`), otherwise builds a todo from the trimmed title and description
   * with the record's defaults. The `dueDate` and `priority` parameters are the
   * ones the repository passes and are stored unchanged.
   */
  function CreateTodo(
    id: string, createdAt: Long,
    title: string, quadrant: Quadrant, description: string := "",
    dueDate: Option<Long> := None, priority: Int := Medium.Value()): (r: Option<Todo>)
    ensures r.None? <==> IsBlank(title)
    ensures r.Some? ==> r.value.title != [] && r.value.title == Trim(title)
    ensures r.Some? ==> r.value.description == Trim(description)
    ensures r.Some? ==> && r.value.id == id && r.value.createdAt == createdAt
                        && r.value.quadrant == quadrant && !r.value.isCompleted
                        && r.value.dueDate == dueDate && r.value.priority == priority
  {
    if IsBlank(title) then None
    else Some(Todo(id := id, title := Trim(title), description := Trim(description),
                   quadrant := quadrant, createdAt := createdAt,
                   dueDate := dueDate, priority := priority))
  }

  /** Without a due date or a priority, a created todo has no due date and MEDIUM priority. */
  lemma CreateTodoDefaults(id: string, createdAt: Long, title: string, quadrant: Quadrant)
    requires !IsBlank(title)
    ensures CreateTodo(id, createdAt, title, quadrant).Some?
    ensures CreateTodo(id, createdAt, title, quadrant).value.dueDate == None
    ensures CreateTodo(id, createdAt, title, quadrant).value.priority == Medium.Value() == 2
    ensures CreateTodo(id, createdAt, title, quadrant).value.description == ""
  {
  }

  /** One bucket of the matrix view: a quadrant, its heading and its todos. */
  datatype QuadrantState = QuadrantState(quadrant: Quadrant, title: string, todos: seq<Todo> := [])

  /** A bucket built without todos holds none. */
  lemma QuadrantStateDefaultEmpty(q: Quadrant, title: string)
    ensures QuadrantState(q, title).todos == []
  {
  }

  /** The application's own failure kinds, each with its default message. */
  datatype TodoError = EmptyTitle | TodoNotFound | InvalidQuadrant {
    function Message(): (r: string)
      ensures this == EmptyTitle ==> r == "Title cannot be empty"
      ensures this == TodoNotFound ==> r == "Todo not found"
      ensures this == InvalidQuadrant ==> r == "Invalid quadrant"
    {
      match this
      case EmptyTitle => "Title cannot be empty"
      case TodoNotFound => "Todo not found"
      case InvalidQuadrant => "Invalid quadrant"
    }
  }
}
