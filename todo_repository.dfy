/**
 * The repository over the DAO: validation on creation, lookups before every
 * keyed mutation, and a success/failure `Result` for every mutation. Reads map
 * the DAO's rows to domain todos.
 */
module Repository {
  import opened Wrappers
  import opened Text
  import opened Seqs
  import opened TodoModel
  import opened Data
  import opened Dao

  /** Why a repository mutation failed: one of the app's own errors, or any other storage exception. */
  datatype Fault = Domain(error: TodoError) | StorageFault

  function EntityToTodo(): TodoEntity -> Todo {
    (e: TodoEntity) => e.ToTodo()
  }

  /** `entities.map { it.toTodo() }`. */
  function ToTodos(rows: seq<TodoEntity>): (r: seq<Todo>)
    ensures |r| == |rows|
    ensures forall i :: 0 <= i < |rows| ==> FromTodo(r[i]) == rows[i]
  {
    Map(rows, EntityToTodo())
  }

  /** A todo is listed exactly when the row that stores it is. */
  lemma {:induction false} ToTodosMembers(rows: seq<TodoEntity>)
    ensures forall t :: t in ToTodos(rows) <==> FromTodo(t) in rows
  {
    var r := ToTodos(rows);
    forall t ensures t in r <==> FromTodo(t) in rows {
      if t in r {
        var i :| 0 <= i < |r| && r[i] == t;
      }
      if FromTodo(t) in rows {
        var i :| 0 <= i < |rows| && rows[i] == FromTodo(t);
        assert r[i] == rows[i].ToTodo() == t;
      }
    }
  }

  /** The rows that store the given todos, one per todo and in the same order. */
  function Stored(ts: seq<Todo>): (r: seq<TodoEntity>)
    ensures |r| == |ts|
    ensures forall i :: 0 <= i < |ts| ==> r[i] == FromTodo(ts[i])
  {
    Map(ts, (t: Todo) => FromTodo(t))
  }

  /** Mapping rows to todos loses nothing: storing the todos gives back the rows. */
  lemma StoredToTodos(rows: seq<TodoEntity>)
    ensures Stored(ToTodos(rows)) == rows
  {
  }

  /** The stored row with its completion flag flipped and nothing else changed. */
  function Toggled(e: TodoEntity): (r: TodoEntity)
    ensures r.isCompleted == !e.isCompleted
    ensures r.(isCompleted := e.isCompleted) == e
  {
    FromTodo(e.ToTodo().(isCompleted := !e.isCompleted))
  }

  /** The stored row moved to quadrant `q` with nothing else changed. */
  function Moved(e: TodoEntity, q: Quadrant): (r: TodoEntity)
    ensures r.quadrant == q
    ensures r.(quadrant := e.quadrant) == e
  {
    FromTodo(e.ToTodo().(quadrant := q))
  }

  /** The table after `toggleTodoCompletion(id)`. */
  function ToggleRows(rows: seq<TodoEntity>, id: string): seq<TodoEntity> {
    match FindById(rows, id)
    case None => rows
    case Some(e) => ReplaceById(rows, Toggled(e))
  }

  /** The table after `moveTodoToQuadrant(id, q)`. */
  function MoveRows(rows: seq<TodoEntity>, id: string, q: Quadrant): seq<TodoEntity> {
    match FindById(rows, id)
    case None => rows
    case Some(e) => ReplaceById(rows, Moved(e, q))
  }

  /** Overwriting twice under one key leaves the second value. */
  lemma {:induction false} ReplaceByIdTwice(rows: seq<TodoEntity>, a: TodoEntity, b: TodoEntity)
    requires a.id == b.id
    ensures ReplaceById(ReplaceById(rows, a), b) == ReplaceById(rows, b)
  {
  }

  /** Overwriting a row with itself changes nothing. */
  lemma {:induction false} ReplaceByIdSame(rows: seq<TodoEntity>, e: TodoEntity)
    requires UniqueIds(rows) && e in rows
    ensures ReplaceById(rows, e) == rows
  {
    AsMapHoldsRows(rows);
    forall i | 0 <= i < |rows| ensures ReplaceById(rows, e)[i] == rows[i] {
      if rows[i].id == e.id {
        assert rows[i] in rows;
      }
    }
  }

  /** After overwriting, the lookup finds the new row. */
  lemma {:induction false} FindAfterReplace(rows: seq<TodoEntity>, e: TodoEntity)
    requires e.id in AsMap(rows)
    ensures FindById(ReplaceById(rows, e), e.id) == Some(e)
  {
    AsMapReplaceById(rows, e);
    FindByIdAsMap(ReplaceById(rows, e), e.id);
  }

  /** Toggling the same todo twice restores the table. */
  lemma {:induction false} ToggleTwiceRestores(rows: seq<TodoEntity>, id: string)
    requires UniqueIds(rows)
    ensures ToggleRows(ToggleRows(rows, id), id) == rows
  {
    FindByIdAsMap(rows, id);
    if id in AsMap(rows) {
      var e := AsMap(rows)[id];
      AsMapKeys(rows);
      FindAfterReplace(rows, Toggled(e));
      ReplaceByIdTwice(rows, Toggled(e), Toggled(Toggled(e)));
      assert Toggled(Toggled(e)) == e;
      ReplaceByIdSame(rows, e);
    }
  }

  /** Moving a todo to the quadrant it was just moved to changes nothing more. */
  lemma {:induction false} MoveIdempotent(rows: seq<TodoEntity>, id: string, q: Quadrant)
    ensures MoveRows(MoveRows(rows, id, q), id, q) == MoveRows(rows, id, q)
  {
    FindByIdAsMap(rows, id);
    if id in AsMap(rows) {
      var e := AsMap(rows)[id];
      AsMapKeys(rows);
      FindAfterReplace(rows, Moved(e, q));
      assert Moved(Moved(e, q), q) == Moved(e, q);
      ReplaceByIdTwice(rows, Moved(e, q), Moved(e, q));
    }
  }

  /**
   * After a move, the todo is in the new quadrant's listing and in no other
   * quadrant's listing.
   */
  lemma {:induction false} MovedIntoOneBucket(rows: seq<TodoEntity>, id: string, q: Quadrant, other: Quadrant)
    requires UniqueIds(rows) && id in AsMap(rows) && other != q
    ensures var moved := Moved(AsMap(rows)[id], q);
      && moved in ByQuadrant(MoveRows(rows, id, q), q)
      && forall e :: e in ByQuadrant(MoveRows(rows, id, q), other) ==> e.id != id
  {
    var moved := Moved(AsMap(rows)[id], q);
    var after := MoveRows(rows, id, q);
    FindByIdAsMap(rows, id);
    AsMapKeys(rows);
    AsMapReplaceById(rows, moved);
    assert AsMap(after) == AsMap(rows)[id := moved];
    AsMapHoldsRows(after);
    AsMapKeys(after);
    assert moved in after;
  }

  /** The repository: the DAO behind domain-level operations. */
  class TodoRepositoryImpl {
    const dao: TodoDao

    constructor (dao: TodoDao)
      ensures this.dao == dao
    {
      this.dao := dao;
    }

    ghost predicate Valid()
      reads dao
    {
      dao.Valid()
    }

    /** `todos`: every stored todo, newest first, each stored row listed once. */
    function Todos(): (r: seq<Todo>)
      reads dao
      ensures forall t :: t in r <==> FromTodo(t) in dao.rows
      ensures multiset(Stored(r)) == multiset(dao.rows)
      ensures forall i, j :: 0 <= i < j < |r| ==> r[i].createdAt >= r[j].createdAt
    {
      var all := dao.GetAllTodos();
      ToTodosMembers(all);
      StoredToTodos(all);
      assert forall e :: e in all <==> e in multiset(all);
      ToTodos(all)
    }

    /** `getTodosByQuadrant(q)`: the stored todos in quadrant `q`, newest first, each once. */
    function GetTodosByQuadrant(q: Quadrant): (r: seq<Todo>)
      reads dao
      ensures forall t :: t in r <==> FromTodo(t) in dao.rows && t.quadrant == q
      ensures multiset(Stored(r)) == multiset(Filter(dao.rows, InQuadrant(q)))
      ensures forall i, j :: 0 <= i < j < |r| ==> r[i].createdAt >= r[j].createdAt
    {
      var listed := dao.GetTodosByQuadrant(q);
      ToTodosMembers(listed);
      StoredToTodos(listed);
      ToTodos(listed)
    }

    /** `searchTodos(query)`: the stored todos whose title or description contains the query. */
    function SearchTodos(query: string): (r: seq<Todo>)
      reads dao
      ensures forall t :: t in r <==> FromTodo(t) in dao.rows && (Contains(t.title, query) || Contains(t.description, query))
      ensures multiset(Stored(r)) <= multiset(dao.rows)
    {
      var found := dao.SearchTodos(query);
      ToTodosMembers(found);
      StoredToTodos(found);
      ToTodos(found)
    }

    /** `getUpcomingTodos`, with the current time passed in: todos due after `now`, soonest first. */
    function GetUpcomingTodos(now: Long): (r: seq<Todo>)
      reads dao
      ensures forall t :: t in r <==> FromTodo(t) in dao.rows && t.dueDate.Some? && t.dueDate.value > now
      ensures forall i :: 0 <= i < |r| ==> r[i].dueDate.Some? && r[i].dueDate.value > now
      ensures forall i, j :: 0 <= i < j < |r| ==> r[i].dueDate.value <= r[j].dueDate.value
      ensures multiset(Stored(r)) == multiset(Filter(dao.rows, DueAfter(now)))
    {
      var due := dao.GetUpcomingTodos(now);
      ToTodosMembers(due);
      StoredToTodos(due);
      ToTodos(due)
    }

    /**
     * `addTodo`: validates and builds the todo (with the generated `id` and the
     * current time `now`), then stores it; a blank title fails with `EmptyTitle`
     * before anything is written.
     */
    method AddTodo(
      title: string, description: string, quadrant: Quadrant, id: string, now: Long,
      dueDate: Option<Long> := None, priority: Int := 2)
      returns (r: Result<Todo, Fault>)
      requires Valid()
      modifies dao
      ensures Valid()
      ensures IsBlank(title) <==> r == Failure(Domain(EmptyTitle))
      ensures r.Success? <==> !IsBlank(title)
      ensures IsBlank(title) ==> dao.rows == old(dao.rows)
      ensures r.Success? ==> r.value == Todo(id, Trim(title), Trim(description), false, quadrant, now, dueDate, priority)
      ensures r.Success? ==> dao.Table() == old(dao.Table())[id := FromTodo(r.value)]
    {
      var created := CreateTodo(id, now, title, quadrant, description, dueDate, priority);
      if created.None? {
        return Failure(Domain(EmptyTitle));
      }
      var todo := created.value;
      dao.InsertTodo(FromTodo(todo));
      r := Success(todo);
    }

    /** `updateTodo`: stores the given todo as it is, without validating its title. */
    method UpdateTodo(todo: Todo) returns (r: Result<Todo, Fault>)
      requires Valid()
      modifies dao
      ensures Valid()
      ensures r == Success(todo)
      ensures dao.rows == ReplaceById(old(dao.rows), FromTodo(todo))
      ensures dao.Table() == if todo.id in old(dao.Table()) then old(dao.Table())[todo.id := FromTodo(todo)] else old(dao.Table())
    {
      dao.UpdateTodo(FromTodo(todo));
      r := Success(todo);
    }

    /** `toggleTodoCompletion`: flips the completion flag of the stored todo. */
    method ToggleTodoCompletion(id: string) returns (r: Result<Todo, Fault>)
      requires Valid()
      modifies dao
      ensures Valid()
      ensures dao.rows == ToggleRows(old(dao.rows), id)
      ensures id !in old(dao.Table()) <==> r == Failure(Domain(TodoNotFound))
      ensures id !in old(dao.Table()) ==> dao.rows == old(dao.rows)
      ensures id in old(dao.Table()) ==>
        var before := old(dao.Table())[id].ToTodo();
        && r == Success(before.(isCompleted := !before.isCompleted))
        && dao.Table() == old(dao.Table())[id := FromTodo(r.value)]
    {
      var found := dao.GetTodoById(id);
      if found.None? {
        return Failure(Domain(TodoNotFound));
      }
      var entity := found.value;
      var updated := entity.ToTodo().(isCompleted := !entity.isCompleted);
      FindByIdAsMap(dao.rows, id);
      dao.UpdateTodo(FromTodo(updated));
      r := Success(updated);
    }

    /** `moveTodoToQuadrant`: sets the quadrant of the stored todo. */
    method MoveTodoToQuadrant(id: string, newQuadrant: Quadrant) returns (r: Result<Todo, Fault>)
      requires Valid()
      modifies dao
      ensures Valid()
      ensures dao.rows == MoveRows(old(dao.rows), id, newQuadrant)
      ensures id !in old(dao.Table()) <==> r == Failure(Domain(TodoNotFound))
      ensures id !in old(dao.Table()) ==> dao.rows == old(dao.rows)
      ensures id in old(dao.Table()) ==>
        && r == Success(old(dao.Table())[id].ToTodo().(quadrant := newQuadrant))
        && dao.Table() == old(dao.Table())[id := FromTodo(r.value)]
    {
      var found := dao.GetTodoById(id);
      if found.None? {
        return Failure(Domain(TodoNotFound));
      }
      var updated := found.value.ToTodo().(quadrant := newQuadrant);
      FindByIdAsMap(dao.rows, id);
      dao.UpdateTodo(FromTodo(updated));
      r := Success(updated);
    }

    /** `deleteTodo`: removes the stored todo. */
    method DeleteTodo(id: string) returns (r: Result<(), Fault>)
      requires Valid()
      modifies dao
      ensures Valid()
      ensures id !in old(dao.Table()) <==> r == Failure(Domain(TodoNotFound))
      ensures id !in old(dao.Table()) ==> dao.rows == old(dao.rows)
      ensures id in old(dao.Table()) ==> r == Success(()) && dao.rows == WithoutId(old(dao.rows), id)
      ensures dao.Table() == old(dao.Table()) - {id}
    {
      var found := dao.GetTodoById(id);
      if found.None? {
        assert old(dao.Table()) - {id} == old(dao.Table());
        return Failure(Domain(TodoNotFound));
      }
      FindByIdAsMap(dao.rows, id);
      dao.DeleteTodo(found.value);
      r := Success(());
    }

    /** `clearCompletedTodos`: deletes every completed todo, unconditionally. */
    method ClearCompletedTodos() returns (r: Result<(), Fault>)
      requires Valid()
      modifies dao
      ensures Valid()
      ensures r == Success(())
      ensures dao.rows == Filter(old(dao.rows), IsIncomplete)
      ensures dao.Table() == IncompleteOnly(old(dao.Table()))
    {
      dao.DeleteCompletedTodos();
      r := Success(());
    }
  }
}
