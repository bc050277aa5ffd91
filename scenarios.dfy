/**
 * The app's end-to-end behaviour, exercised through the view model exactly as
 * the screen drives it: each method builds a fresh store, runs a sequence of
 * user actions and asserts what the screen then shows.
 */
module Scenarios {
  import opened Wrappers
  import opened Text
  import opened TodoModel
  import opened Data
  import opened Dao
  import opened Repository
  import opened ViewModel

  /** A title that starts and ends with a visible character is stored as typed. */
  lemma TrimUnframed(s: string)
    requires s != [] && !IsWhitespace(s[0]) && !IsWhitespace(s[|s| - 1])
    ensures Trim(s) == s
  {
    assert TrimStart(s) == s;
    assert TrimEnd(s) == s;
  }

  /**
   * Adding a title with no surrounding spaces to Do First stores one
   * incomplete, medium-priority todo; moving it to Schedule leaves the store
   * holding that same todo with only its quadrant changed (ShownAfterMove then
   * says which bucket the screen lists it in).
   */
  method AddThenMove(title: string, id: string, now: Long)
    requires title != [] && !IsWhitespace(title[0]) && !IsWhitespace(title[|title| - 1])
  {
    var dao := new TodoDao();
    var repository := new TodoRepositoryImpl(dao);
    var vm := new TodoViewModel(repository);
    TrimUnframed(title);

    vm.AddTodo(title, "", UrgentImportant, id, now);
    var added := FromTodo(Todo(id, title, "", false, UrgentImportant, now, None, 2));
    assert dao.Table() == map[id := added];
    assert vm.error == None;

    vm.MoveTodoToQuadrant(id, NotUrgentImportant);
    var moved := added.(quadrant := NotUrgentImportant);
    assert dao.Table() == map[id := moved];
  }

  /** A store whose only row is in Schedule lists it under Schedule and not under Do First. */
  lemma ShownAfterMove(rows: seq<TodoEntity>, id: string, moved: TodoEntity)
    requires AsMap(rows) == map[id := moved] && moved.quadrant == NotUrgentImportant
    ensures moved.ToTodo() !in Snapshot(rows).quadrants[0].todos
    ensures moved.ToTodo() in Snapshot(rows).quadrants[1].todos
  {
    assert moved in rows by {
      AsMapKeys(rows);
      assert AsMap(rows)[id] == moved;
    }
    SnapshotPlacesEachTodo(rows, moved, 0);
    SnapshotPlacesEachTodo(rows, moved, 1);
  }

  /**
   * Adding a todo, ticking it off and then clearing completed todos leaves an
   * empty store; a second tick on an unknown id reports "Todo not found".
   */
  method AddToggleClear(title: string, id: string, other: string, now: Long)
    requires title != [] && !IsWhitespace(title[0]) && !IsWhitespace(title[|title| - 1])
    requires other != id
  {
    var dao := new TodoDao();
    var repository := new TodoRepositoryImpl(dao);
    var vm := new TodoViewModel(repository);
    TrimUnframed(title);

    vm.AddTodo(title, "", UrgentImportant, id, now);
    var added := FromTodo(Todo(id, title, "", false, UrgentImportant, now, None, 2));
    assert dao.Table() == map[id := added];

    vm.ToggleTodoCompletion(id);
    assert dao.Table() == map[id := added.(isCompleted := true)];
    assert vm.error == None;

    vm.ToggleTodoCompletion(other);
    assert vm.error == Some("Todo not found");

    vm.ClearCompletedTodos();
    assert dao.Table() == map[];
  }
}
