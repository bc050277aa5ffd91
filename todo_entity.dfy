/**
 * The persisted row of the `todos` table and its conversions: the field-for-
 * field mapping to and from the domain `Todo`, and the Room type converters
 * for quadrants (stored by name) and timestamps (stored as `Long`).
 */
module Data {
  import opened Wrappers
  import opened TodoModel

  /** A row of the `todos` table, keyed by `id`. */
  datatype TodoEntity = TodoEntity(
    id: string,
    title: string,
    description: string,
    isCompleted: bool,
    quadrant: Quadrant,
    createdAt: Long,
    dueDate: Option<Long> := None,
    priority: Int := 2)  // 1: Low, 2: Medium, 3: High
  {
    /** The domain todo this row stores; the row can be rebuilt from it field for field. */
    function ToTodo(): (t: Todo)
      ensures TodoEntity(t.id, t.title, t.description, t.isCompleted, t.quadrant, t.createdAt, t.dueDate, t.priority) == this
    {
      Todo(id, title, description, isCompleted, quadrant, createdAt, dueDate, priority)
    }
  }

  /** The row that stores `t`. */
  function FromTodo(t: Todo): (e: TodoEntity)
    ensures e.ToTodo() == t
  {
    TodoEntity(t.id, t.title, t.description, t.isCompleted, t.quadrant, t.createdAt, t.dueDate, t.priority)
  }

  /** Storing a todo and reading it back gives the same todo. */
  lemma ToTodoFromTodo(t: Todo)
    ensures FromTodo(t).ToTodo() == t
  {
  }

  /** Reading a row and storing it back gives the same row. */
  lemma FromTodoToTodo(e: TodoEntity)
    ensures FromTodo(e.ToTodo()) == e
  {
  }

  /** The conversion copies every field unchanged. */
  lemma FromTodoCopiesFields(t: Todo)
    ensures var e := FromTodo(t);
      && e.id == t.id && e.title == t.title && e.description == t.description
      && e.isCompleted == t.isCompleted && e.quadrant == t.quadrant
      && e.createdAt == t.createdAt && e.dueDate == t.dueDate && e.priority == t.priority
  {
  }

  /** A row built without a priority or due date has priority 2 and no due date. */
  lemma EntityDefaults(id: string, title: string, description: string, isCompleted: bool, q: Quadrant, createdAt: Long)
    ensures TodoEntity(id, title, description, isCompleted, q, createdAt).priority == 2
    ensures TodoEntity(id, title, description, isCompleted, q, createdAt).dueDate == None
  {
  }

  /** `Converters.fromQuadrant`: the enum constant's name. */
  function FromQuadrant(q: Quadrant): (s: string)
    ensures ToQuadrant(s) == Some(q)
  {
    q.Name()
  }

  /**
   * `Converters.toQuadrant`, that is `EisenhowerQuadrant.valueOf`: the quadrant
   * with that exact name, and `None` where `valueOf` throws.
   */
  function ToQuadrant(s: string): (r: Option<Quadrant>)
    ensures r.Some? ==> r.value.Name() == s
  {
    if s == "URGENT_IMPORTANT" then Some(UrgentImportant)
    else if s == "NOT_URGENT_IMPORTANT" then Some(NotUrgentImportant)
    else if s == "URGENT_NOT_IMPORTANT" then Some(UrgentNotImportant)
    else if s == "NOT_URGENT_NOT_IMPORTANT" then Some(NotUrgentNotImportant)
    else None
  }

  /** A stored name decodes exactly when it is the name of one of the four quadrants. */
  lemma {:induction false} ToQuadrantDefinedIffName(s: string)
    ensures ToQuadrant(s).Some? <==> exists q: Quadrant :: q.Name() == s
  {
    if exists q: Quadrant :: q.Name() == s {
      var q: Quadrant :| q.Name() == s;
      assert ToQuadrant(q.Name()) == Some(q);
    }
  }

  /** Quadrant names are distinct, so the name converter loses nothing. */
  lemma QuadrantRoundTrip(q: Quadrant)
    ensures ToQuadrant(FromQuadrant(q)) == Some(q)
  {
  }

  /** `java.util.Date`, reduced to its millisecond timestamp. */
  datatype Date = Date(time: Long)

  /** `Converters.fromTimestamp`: null stays null, a timestamp becomes a date. */
  function FromTimestamp(value: Option<Long>): (r: Option<Date>)
    ensures r.None? <==> value.None?
    ensures DateToTimestamp(r) == value
  {
    match value
    case None => None
    case Some(ms) => Some(Date(ms))
  }

  /** `Converters.dateToTimestamp`: null stays null, a date gives its timestamp. */
  function DateToTimestamp(date: Option<Date>): (r: Option<Long>)
    ensures r.None? <==> date.None?
  {
    match date
    case None => None
    case Some(d) => Some(d.time)
  }

  /** Both timestamp round trips are the identity. */
  lemma TimestampRoundTrips(value: Option<Long>, date: Option<Date>)
    ensures DateToTimestamp(FromTimestamp(value)) == value
    ensures FromTimestamp(DateToTimestamp(date)) == date
  {
  }
}
