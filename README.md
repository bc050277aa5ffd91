# Eisenhower-matrix todo app: a verified model of its data layer

This project models the core of a small Android todo app in Dafny. The app sorts tasks into the four
quadrants of the Eisenhower matrix: Do First, Schedule, Delegate and Eliminate. The model covers:

- the domain record `Todo` and its validating constructor `createTodo`;
- the mapping between that record and the persisted row `TodoEntity`, and the quadrant and timestamp
  converters;
- the Room table of rows keyed by `id`, with its nine queries and mutations;
- the repository, which wraps each mutation in a `Result`;
- the view model, which builds the four quadrant buckets and keeps the search text, the
  show-completed flag and the current error message;
- two rules of the todo card: the priority label, and which quadrants the move menu offers.

Modules, one per layer of the app:

| module | file | models |
|---|---|---|
| `Wrappers` | wrappers.dfy | `Option` and `Result` (Kotlin's nullable types and `Result`) |
| `Text` | text.dfy | Kotlin's `Char.isWhitespace`, `isBlank`, `trim` and substring `contains` |
| `Seqs` | seqs.dfy | filtering, and a stable insertion sort that stands for SQL `ORDER BY` |
| `TodoModel` | todo_model.dfy | `model/Todo.kt` |
| `Data` | todo_entity.dfy | `data/TodoEntity.kt` |
| `Dao` | todo_dao.dfy | `data/TodoDao.kt`: class `TodoDao` holds the table |
| `Repository` | todo_repository.dfy | `repository/TodoRepositoryImpl.kt`: class `TodoRepositoryImpl` |
| `ViewModel` | todo_view_model.dfy | `viewmodel/TodoViewModel.kt`: class `TodoViewModel` |
| `Card` | todo_card.dfy | `getPriorityText`, the card colour and the move menu of `ui/components/TodoCard.kt` |
| `Scenarios` | scenarios.dfy | a user adds, moves, ticks off and clears a todo through the view model |

How the table is modelled:

- The table is `rows: seq<TodoEntity>`, kept in insertion order, with unique ids (`TodoDao.Valid`).
- `Table()` is the keyed view of the rows as `map<string, TodoEntity>`.
- Every DAO mutator states its new `rows` exactly, and also states its effect on `Table()`.
- `IncompleteOnly` is the reference definition of the keyed view after completed todos are cleared:
  the entries whose todo is not completed.
- `OnConflictStrategy.REPLACE` removes the old row and appends the new one.
- `@Update` and `@Delete` match rows by primary key, so a missing key changes nothing.
- `ORDER BY` is a stable sort over the rows in insertion order; SQLite does not fix the order of rows
  with equal keys, so this is one choice of that order.

What the error state holds, and what the model takes as parameters:

- Results carry `Fault`, which is either a `TodoError` or a `StorageFault`. `StorageFault` stands for
  the generic `catch (e: Exception)` branches. The model's store never raises one.
- Ids (`UUID.randomUUID`) and the clock (`System.currentTimeMillis`) are parameters (`id`, `now`).

## Source discrepancies

Paths are relative to `Todo-App/app/src/main/java/com/example/todoapp/`. Each of these would stop the
source from compiling, so the model follows what the code evidently means:

- `createTodo` declares only title, description and quadrant (`model/Todo.kt:35-39`). The repository
  calls it with `dueDate` and `priority` as well (`repository/TodoRepositoryImpl.kt:30-36`).
  `TodoModel.CreateTodo` takes both and passes them through unchanged.
- `clearError` and `updateErrorState` write to `_uiState`, which is never declared
  (`viewmodel/TodoViewModel.kt:148`, `:158`). The model keeps the error in its own field,
  `TodoViewModel.error`. `UiState()` combines it with the snapshot of the buckets.
- `TodoCard` calls `getQuadrantTitle`, which is private to the view model (`ui/components/TodoCard.kt:123`,
  `viewmodel/TodoViewModel.kt:161`). `Card` uses `ViewModel.GetQuadrantTitle`.

One behaviour is modelled exactly as written, even though it looks unintended. The `combine` block reads
the search query and the show-completed flag but does not use them (`viewmodel/TodoViewModel.kt:40-56`).
So `ViewModel.Snapshot` lists every todo of a quadrant, whatever the search text or the flag.

## Model

All paths are relative to the repository root.

| member | source | states |
|---|---|---|
| TodoModel.AllQuadrantsComplete | Todo-App/app/src/main/java/com/example/todoapp/model/Todo.kt:8-13 | there are exactly four quadrants, pairwise distinct, and every quadrant value is one of them |
| TodoModel.Quadrant.Name | Todo-App/app/src/main/java/com/example/todoapp/model/Todo.kt:8-13 | each constant's persisted name is its identifier: `URGENT_IMPORTANT`, `NOT_URGENT_IMPORTANT`, `URGENT_NOT_IMPORTANT`, `NOT_URGENT_NOT_IMPORTANT` |
| TodoModel.Priority.Value | Todo-App/app/src/main/java/com/example/todoapp/model/Todo.kt:18-22 | each priority's value is between 1 and 3 |
| TodoModel.PriorityValuesOrdered | Todo-App/app/src/main/java/com/example/todoapp/model/Todo.kt:18-22 | LOW = 1, MEDIUM = 2, HIGH = 3, and the values are strictly increasing |
| TodoModel.CreateTodo | Todo-App/app/src/main/java/com/example/todoapp/model/Todo.kt:35-46 | fails exactly when the title is blank; on success the title is the trimmed input and is non-empty, the description is trimmed, `isCompleted` is false and id, quadrant, createdAt, dueDate and priority are the given ones |
| TodoModel.CreateTodoDefaults | Todo-App/app/src/main/java/com/example/todoapp/model/Todo.kt:24-33 | a todo created without a due date, priority or description has no due date, priority 2 (MEDIUM) and an empty description |
| TodoModel.QuadrantStateDefaultEmpty | Todo-App/app/src/main/java/com/example/todoapp/model/Todo.kt:53-57 | a quadrant state built without todos has an empty list |
| TodoModel.TodoError.Message | Todo-App/app/src/main/java/com/example/todoapp/model/Todo.kt:62-66 | the default messages: "Title cannot be empty", "Todo not found", "Invalid quadrant" |
| Text.Trim | Todo-App/app/src/main/java/com/example/todoapp/model/Todo.kt:40-45 | the result is a slice of the input with only whitespace around it, starts and ends with a non-whitespace character, and is empty exactly when the input is blank |
| Text.TrimStart | Todo-App/app/src/main/java/com/example/todoapp/model/Todo.kt:42-43 | removes exactly the leading whitespace: what it drops is blank and what it keeps starts with a non-whitespace character |
| Text.TrimEnd | Todo-App/app/src/main/java/com/example/todoapp/model/Todo.kt:42-43 | removes exactly the trailing whitespace, the mirror image of `TrimStart` |
| Text.TrimIdempotent | Todo-App/app/src/main/java/com/example/todoapp/model/Todo.kt:42-43 | trimming a trimmed string changes nothing |
| Text.ContainsIffOccurs | Todo-App/app/src/main/java/com/example/todoapp/data/TodoDao.kt:30-31 | the substring test used by search holds exactly when the query occurs at some position of the text |
| Text.ContainsEmpty | Todo-App/app/src/main/java/com/example/todoapp/data/TodoDao.kt:30-31 | every text contains the empty query |
| Data.FromTodo | Todo-App/app/src/main/java/com/example/todoapp/data/TodoEntity.kt:35-46 | converting a todo to a row and back gives the same todo |
| Data.TodoEntity.ToTodo | Todo-App/app/src/main/java/com/example/todoapp/data/TodoEntity.kt:21-32 | converting a row to a todo loses nothing: the row is rebuilt field for field from the todo |
| Data.ToTodoFromTodo | Todo-App/app/src/main/java/com/example/todoapp/data/TodoEntity.kt:21-46 | `toTodo(fromTodo(t)) == t` for every todo |
| Data.FromTodoToTodo | Todo-App/app/src/main/java/com/example/todoapp/data/TodoEntity.kt:21-46 | `fromTodo(toTodo(e)) == e` for every row |
| Data.FromTodoCopiesFields | Todo-App/app/src/main/java/com/example/todoapp/data/TodoEntity.kt:35-46 | each of the eight fields is copied unchanged into the row |
| Data.EntityDefaults | Todo-App/app/src/main/java/com/example/todoapp/data/TodoEntity.kt:10-19 | a row built without them has priority 2 and no due date |
| Data.FromQuadrant | Todo-App/app/src/main/java/com/example/todoapp/data/TodoEntity.kt:51-54 | the stored name of a quadrant decodes back to that quadrant |
| Data.ToQuadrant | Todo-App/app/src/main/java/com/example/todoapp/data/TodoEntity.kt:56-59 | a decoded quadrant is the one with that exact name |
| Data.ToQuadrantDefinedIffName | Todo-App/app/src/main/java/com/example/todoapp/data/TodoEntity.kt:56-59 | decoding succeeds exactly when the string is one of the four names; any other string is the `valueOf` failure |
| Data.QuadrantRoundTrip | Todo-App/app/src/main/java/com/example/todoapp/data/TodoEntity.kt:51-59 | `toQuadrant(fromQuadrant(q)) == q` for all four quadrants |
| Data.FromTimestamp | Todo-App/app/src/main/java/com/example/todoapp/data/TodoEntity.kt:61-64 | null maps to null, and a timestamp maps to a date that converts back to it |
| Data.DateToTimestamp | Todo-App/app/src/main/java/com/example/todoapp/data/TodoEntity.kt:66-69 | null maps to null and a date maps to a timestamp |
| Data.TimestampRoundTrips | Todo-App/app/src/main/java/com/example/todoapp/data/TodoEntity.kt:61-69 | the two converters are inverse to each other in both directions |
| Dao.FindById | Todo-App/app/src/main/java/com/example/todoapp/data/TodoDao.kt:27-28 | a found row is in the table and has that id; nothing is found exactly when no row has that id |
| Dao.FindByIdAsMap | Todo-App/app/src/main/java/com/example/todoapp/data/TodoDao.kt:27-28 | the lookup agrees with the keyed view of the table |
| Dao.TodoDao.GetTodoById | Todo-App/app/src/main/java/com/example/todoapp/data/TodoDao.kt:27-28 | returns the row keyed by the id, or null when there is none |
| Dao.TodoDao.GetAllTodos | Todo-App/app/src/main/java/com/example/todoapp/data/TodoDao.kt:9-10 | every stored row exactly once, sorted by createdAt descending |
| Dao.TodoDao.GetTodosByQuadrant | Todo-App/app/src/main/java/com/example/todoapp/data/TodoDao.kt:12-13 | exactly the stored rows of that quadrant, each once, sorted by createdAt descending |
| Dao.TodoDao.SearchTodos | Todo-App/app/src/main/java/com/example/todoapp/data/TodoDao.kt:30-31 | exactly the stored rows whose title or description contains the query, none more often than stored |
| Dao.TodoDao.GetUpcomingTodos | Todo-App/app/src/main/java/com/example/todoapp/data/TodoDao.kt:33-34 | a permutation of the stored rows due after `now`, sorted by due date ascending |
| Dao.AllTodos | Todo-App/app/src/main/java/com/example/todoapp/data/TodoDao.kt:9-10 | returns every row exactly once (the same multiset), sorted by createdAt descending |
| Dao.ByQuadrant | Todo-App/app/src/main/java/com/example/todoapp/data/TodoDao.kt:12-13 | returns exactly the rows of that quadrant, each as often as in the table, sorted by createdAt descending |
| Dao.ByQuadrantMembers | Todo-App/app/src/main/java/com/example/todoapp/data/TodoDao.kt:12-13 | a row is in the per-quadrant query exactly when it is stored with that quadrant |
| Dao.ByQuadrantFiltersAll | Todo-App/app/src/main/java/com/example/todoapp/data/TodoDao.kt:9-13 | the quadrant query equals the quadrant filter of the all-rows query |
| Dao.Search | Todo-App/app/src/main/java/com/example/todoapp/data/TodoDao.kt:30-31 | a row is returned exactly when its title or its description contains the query, and no row more often than it is stored |
| Dao.SearchEmptyQuery | Todo-App/app/src/main/java/com/example/todoapp/data/TodoDao.kt:30-31 | the empty query returns every row in table order |
| Dao.Upcoming | Todo-App/app/src/main/java/com/example/todoapp/data/TodoDao.kt:33-34 | a permutation of the rows with a due date after `now`, sorted by due date ascending |
| Dao.UpcomingMembers | Todo-App/app/src/main/java/com/example/todoapp/data/TodoDao.kt:33-34 | a row is in the upcoming query exactly when it is stored with a due date after `now`, and every row listed has such a due date |
| Dao.AsMapReplacing | Todo-App/app/src/main/java/com/example/todoapp/data/TodoDao.kt:15-16 | replacing on insert keeps ids unique and rebinds exactly the inserted id in the keyed view |
| Dao.TodoDao.InsertTodo | Todo-App/app/src/main/java/com/example/todoapp/data/TodoDao.kt:15-16 | the old row with that id, if any, is dropped and the new row appended; the keyed view gains or replaces exactly that id and every other entry is unchanged |
| Dao.AsMapReplaceById | Todo-App/app/src/main/java/com/example/todoapp/data/TodoDao.kt:18-19 | update by key rebinds the key when it exists and leaves the keyed view unchanged otherwise |
| Dao.TodoDao.UpdateTodo | Todo-App/app/src/main/java/com/example/todoapp/data/TodoDao.kt:18-19 | overwrites the row keyed by the id in place; with no such row neither the rows nor the keyed view change |
| Dao.AsMapWithoutId | Todo-App/app/src/main/java/com/example/todoapp/data/TodoDao.kt:21-22 | removing the rows with an id removes exactly that key from the keyed view |
| Dao.TodoDao.DeleteTodo | Todo-App/app/src/main/java/com/example/todoapp/data/TodoDao.kt:21-22 | removes only the row keyed by the id |
| Dao.AsMapIncomplete | Todo-App/app/src/main/java/com/example/todoapp/data/TodoDao.kt:24-25 | deleting the completed rows leaves, in the keyed view, exactly the incomplete entries |
| Dao.TodoDao.DeleteCompletedTodos | Todo-App/app/src/main/java/com/example/todoapp/data/TodoDao.kt:24-25 | removes exactly the completed rows, keeping the others in order |
| Dao.DeleteCompletedIdempotent | Todo-App/app/src/main/java/com/example/todoapp/data/TodoDao.kt:24-25 | deleting completed rows twice is the same as once |
| Dao.TodoDao.constructor | Todo-App/app/src/main/java/com/example/todoapp/data/TodoDao.kt:7-8 | a new table is empty |
| Seqs.SortBy | Todo-App/app/src/main/java/com/example/todoapp/data/TodoDao.kt:9-10 | `ORDER BY`: the result is a permutation of the input and sorted by the key |
| Seqs.FilterSortBy | Todo-App/app/src/main/java/com/example/todoapp/data/TodoDao.kt:12-13 | filtering a sorted list gives the sorted filtered list, so a `WHERE` before an `ORDER BY` can be moved after it |
| Seqs.FilterMembers | Todo-App/app/src/main/java/com/example/todoapp/data/TodoDao.kt:12-13 | `WHERE`: every kept row comes from the input and satisfies the condition, and every input row that satisfies it is kept |
| Seqs.FilterKeepsAll | Todo-App/app/src/main/java/com/example/todoapp/data/TodoDao.kt:30-31 | a filter returns its whole input exactly when every element satisfies it |
| Seqs.FilterIdempotent | Todo-App/app/src/main/java/com/example/todoapp/data/TodoDao.kt:24-25 | applying the same filter twice is the same as once |
| Seqs.FilterMultiset | Todo-App/app/src/main/java/com/example/todoapp/data/TodoDao.kt:12-13 | a filter never invents or duplicates rows |
| Repository.ToTodos | Todo-App/app/src/main/java/com/example/todoapp/repository/TodoRepositoryImpl.kt:14-15 | `entities.map { it.toTodo() }`: one todo per row, in the same order, each converting back to its row |
| Repository.ToTodosMembers | Todo-App/app/src/main/java/com/example/todoapp/repository/TodoRepositoryImpl.kt:14-15 | a todo is in the converted list exactly when its row is in the input |
| Repository.Toggled | Todo-App/app/src/main/java/com/example/todoapp/repository/TodoRepositoryImpl.kt:60 | flips `isCompleted` and changes no other field |
| Repository.Moved | Todo-App/app/src/main/java/com/example/todoapp/repository/TodoRepositoryImpl.kt:73 | sets the quadrant and changes no other field |
| Repository.TodoRepositoryImpl.Todos | Todo-App/app/src/main/java/com/example/todoapp/repository/TodoRepositoryImpl.kt:14-15 | lists every stored todo, one per stored row, newest first |
| Repository.TodoRepositoryImpl.GetTodosByQuadrant | Todo-App/app/src/main/java/com/example/todoapp/repository/TodoRepositoryImpl.kt:17-20 | lists the stored todos of that quadrant, one per stored row of it, newest first |
| Repository.TodoRepositoryImpl.SearchTodos | Todo-App/app/src/main/java/com/example/todoapp/repository/TodoRepositoryImpl.kt:102-105 | lists exactly the stored todos whose title or description contains the query, none more often than its row is stored |
| Repository.TodoRepositoryImpl.GetUpcomingTodos | Todo-App/app/src/main/java/com/example/todoapp/repository/TodoRepositoryImpl.kt:107-110 | lists the stored todos due after `now`, one per stored row, soonest first |
| Repository.TodoRepositoryImpl.AddTodo | Todo-App/app/src/main/java/com/example/todoapp/repository/TodoRepositoryImpl.kt:22-44 | a blank title gives `EmptyTitle` and leaves the store unchanged; otherwise it returns the trimmed, not completed todo and stores that todo under its id |
| Repository.TodoRepositoryImpl.UpdateTodo | Todo-App/app/src/main/java/com/example/todoapp/repository/TodoRepositoryImpl.kt:46-53 | always returns the given todo and stores it as given, without re-validating the title, when its id is stored |
| Repository.TodoRepositoryImpl.ToggleTodoCompletion | Todo-App/app/src/main/java/com/example/todoapp/repository/TodoRepositoryImpl.kt:55-66 | an absent id gives `TodoNotFound` and writes nothing; otherwise it returns the todo with `isCompleted` flipped and stores exactly that change |
| Repository.TodoRepositoryImpl.MoveTodoToQuadrant | Todo-App/app/src/main/java/com/example/todoapp/repository/TodoRepositoryImpl.kt:68-79 | an absent id gives `TodoNotFound` and writes nothing; otherwise it returns the todo in its new quadrant and stores exactly that change |
| Repository.TodoRepositoryImpl.DeleteTodo | Todo-App/app/src/main/java/com/example/todoapp/repository/TodoRepositoryImpl.kt:81-91 | an absent id gives `TodoNotFound` and writes nothing; a present id is removed, and only it, with success |
| Repository.TodoRepositoryImpl.ClearCompletedTodos | Todo-App/app/src/main/java/com/example/todoapp/repository/TodoRepositoryImpl.kt:93-100 | always succeeds and leaves exactly the incomplete todos |
| Repository.ReplaceByIdTwice | Todo-App/app/src/main/java/com/example/todoapp/repository/TodoRepositoryImpl.kt:46-53 | two updates of the same id leave what the second one wrote |
| Repository.ReplaceByIdSame | Todo-App/app/src/main/java/com/example/todoapp/repository/TodoRepositoryImpl.kt:46-53 | updating a stored row with itself changes nothing |
| Repository.FindAfterReplace | Todo-App/app/src/main/java/com/example/todoapp/repository/TodoRepositoryImpl.kt:46-53 | after updating a stored id, looking it up returns the new row |
| Repository.ToggleTwiceRestores | Todo-App/app/src/main/java/com/example/todoapp/repository/TodoRepositoryImpl.kt:55-66 | toggling the same id twice restores the original table, row for row |
| Repository.MoveIdempotent | Todo-App/app/src/main/java/com/example/todoapp/repository/TodoRepositoryImpl.kt:68-79 | moving to the same quadrant twice is the same as once |
| Repository.MovedIntoOneBucket | Todo-App/app/src/main/java/com/example/todoapp/repository/TodoRepositoryImpl.kt:68-79 | after a move the todo is listed under its new quadrant and under no other |
| Repository.TodoRepositoryImpl.constructor | Todo-App/app/src/main/java/com/example/todoapp/repository/TodoRepositoryImpl.kt:11-13 | the repository works on the table it is given |
| ViewModel.InitialUiStateLoading | Todo-App/app/src/main/java/com/example/todoapp/viewmodel/TodoViewModel.kt:57-61 | before the first computed state the screen is loading, with no quadrants and no error |
| ViewModel.GetQuadrantTitle | Todo-App/app/src/main/java/com/example/todoapp/viewmodel/TodoViewModel.kt:161-168 | the four labels "Do First", "Schedule", "Delegate", "Eliminate" |
| ViewModel.GetQuadrantTitleInjective | Todo-App/app/src/main/java/com/example/todoapp/viewmodel/TodoViewModel.kt:161-168 | different quadrants get different labels |
| ViewModel.Bucket | Todo-App/app/src/main/java/com/example/todoapp/viewmodel/TodoViewModel.kt:43-50 | one quadrant's bucket: its quadrant and label, and the stored todos of that quadrant, one per stored row, newest first |
| ViewModel.Snapshot | Todo-App/app/src/main/java/com/example/todoapp/viewmodel/TodoViewModel.kt:40-56 | four buckets in enum order; bucket i has quadrant i, its label and the repository's list for it; not loading and no error |
| ViewModel.SnapshotPlacesEachTodo | Todo-App/app/src/main/java/com/example/todoapp/viewmodel/TodoViewModel.kt:40-56 | a stored todo is listed in a bucket exactly when the bucket is its quadrant's |
| ViewModel.ErrorMessage | Todo-App/app/src/main/java/com/example/todoapp/viewmodel/TodoViewModel.kt:151-157 | EmptyTitle gives "Title cannot be empty", TodoNotFound "Todo not found", InvalidQuadrant "Invalid quadrant" (through `TodoError.Message`), and any other fault "An unexpected error occurred" |
| ViewModel.ErrorMessageInjective | Todo-App/app/src/main/java/com/example/todoapp/viewmodel/TodoViewModel.kt:151-157 | different errors produce different messages |
| ViewModel.TodoViewModel.constructor | Todo-App/app/src/main/java/com/example/todoapp/viewmodel/TodoViewModel.kt:36-38 | the search text starts empty, no due date is selected, show-completed starts true, and there is no error |
| ViewModel.TodoViewModel.UiState | Todo-App/app/src/main/java/com/example/todoapp/viewmodel/TodoViewModel.kt:40-61 | the screen state: the four buckets of the current snapshot, not loading, with the view model's current error |
| ViewModel.TodoViewModel.SetSearchQuery | Todo-App/app/src/main/java/com/example/todoapp/viewmodel/TodoViewModel.kt:63-68 | afterwards the search query is the given one; nothing else changes |
| ViewModel.TodoViewModel.SetSelectedDueDate | Todo-App/app/src/main/java/com/example/todoapp/viewmodel/TodoViewModel.kt:70-72 | afterwards the selected due date is the given one; nothing else changes |
| ViewModel.TodoViewModel.ToggleShowCompleted | Todo-App/app/src/main/java/com/example/todoapp/viewmodel/TodoViewModel.kt:74-76 | flips show-completed; nothing else changes |
| ViewModel.ToggleShowCompletedTwice | Todo-App/app/src/main/java/com/example/todoapp/viewmodel/TodoViewModel.kt:74-76 | toggling show-completed twice restores it |
| ViewModel.TodoViewModel.ClearError | Todo-App/app/src/main/java/com/example/todoapp/viewmodel/TodoViewModel.kt:147-149 | the error becomes null; nothing else changes |
| ViewModel.TodoViewModel.UpdateErrorState | Todo-App/app/src/main/java/com/example/todoapp/viewmodel/TodoViewModel.kt:151-159 | the error becomes the fault's message; nothing else changes |
| ViewModel.TodoViewModel.AddTodo | Todo-App/app/src/main/java/com/example/todoapp/viewmodel/TodoViewModel.kt:81-94 | no due date and priority 2 by default; a blank title sets "Title cannot be empty" and stores nothing, otherwise the trimmed todo is stored and the error is untouched |
| ViewModel.TodoViewModel.ToggleTodoCompletion | Todo-App/app/src/main/java/com/example/todoapp/viewmodel/TodoViewModel.kt:99-106 | flips the stored todo, or sets "Todo not found" when the id is absent |
| ViewModel.TodoViewModel.MoveTodoToQuadrant | Todo-App/app/src/main/java/com/example/todoapp/viewmodel/TodoViewModel.kt:111-118 | moves the stored todo, or sets "Todo not found" when the id is absent |
| ViewModel.TodoViewModel.DeleteTodo | Todo-App/app/src/main/java/com/example/todoapp/viewmodel/TodoViewModel.kt:123-130 | removes the todo, or sets "Todo not found" when the id is absent |
| ViewModel.TodoViewModel.ClearCompletedTodos | Todo-App/app/src/main/java/com/example/todoapp/viewmodel/TodoViewModel.kt:135-142 | leaves exactly the incomplete todos; the error is untouched because the model's store never faults |
| ViewModel.TodoViewModel.SearchTodos | Todo-App/app/src/main/java/com/example/todoapp/viewmodel/TodoViewModel.kt:174-176 | lists exactly the stored todos whose title or description contains the current search query, none more often than its row is stored |
| ViewModel.TodoViewModel.GetUpcomingTodos | Todo-App/app/src/main/java/com/example/todoapp/viewmodel/TodoViewModel.kt:170-172 | lists the stored todos due after `now`, one per stored row, soonest first |
| Card.GetPriorityText | Todo-App/app/src/main/java/com/example/todoapp/ui/components/TodoCard.kt:322-328 | 3 gives "High", 1 gives "Low", and every other value, including ones outside 1..3, gives "Medium" |
| Card.ContainerColor | Todo-App/app/src/main/java/com/example/todoapp/ui/components/TodoCard.kt:49-53 | 3 gives the error container, 1 the surface variant, every other value the surface |
| Card.ColorMatchesLabel | Todo-App/app/src/main/java/com/example/todoapp/ui/components/TodoCard.kt:49-53 | the card colour splits priorities exactly as the label does: 3, then 1, then everything else |
| Card.MoveTargets | Todo-App/app/src/main/java/com/example/todoapp/ui/components/TodoCard.kt:120-130 | the move menu offers exactly three quadrants: all but the current one |
| Card.MoveTargetLabels | Todo-App/app/src/main/java/com/example/todoapp/ui/components/TodoCard.kt:120-130 | no menu entry carries the current quadrant's label |
| Scenarios.TrimUnframed | Todo-App/app/src/main/java/com/example/todoapp/model/Todo.kt:42-43 | a title with no whitespace at either end is stored as typed |
| Scenarios.ShownAfterMove | Todo-App/app/src/main/java/com/example/todoapp/viewmodel/TodoViewModel.kt:40-56 | a store whose only todo is in Schedule shows it under Schedule and not under Do First |

## Left out

- Compose UI: the screens, dialogs, snackbars, animations and theme are presentation only. The screen's
  own label table and blank-title guard repeat rules that are modelled above.
- Coroutines and Flow: `viewModelScope.launch`, `combine`/`stateIn` and the `WhileSubscribed(5000)`
  teardown are not modelled. Every flow is a snapshot computed from the current table, and every
  launched action runs to completion before the next one starts.
- `TodoRepositoryImpl.getInstance`: the `@Volatile`/`synchronized` singleton is about concurrency.
- `formatDate` calls `SimpleDateFormat` with the default locale, a foreign library.
- `Date` is modelled only as a wrapper around its epoch milliseconds.
- The SQLite engine. In `LIKE`, `%` and `_` inside the query act as wildcards, and ASCII letters match
  without regard to case. Neither is modelled: search is a plain, case-sensitive substring test.
- Dao.AllTodos: equal `createdAt` values keep table order; SQLite leaves that order open, so the model
  fixes one of the orders SQLite may return.
- `TodoViewModel.Factory` and `TodoDatabase`: Android wiring. The `TodoRepository` interface has only
  signatures; its defaults (`dueDate = null`, `priority = 2`) are those of the model's methods.
- Storage faults are never raised; `Fault.StorageFault` exists only so that `ErrorMessage` covers the
  generic branch.
- The counts of rows changed that Room's `@Update` and `@Delete` can return are not modelled.
- Text.IsWhitespace: follows the characters Kotlin treats as whitespace: the control characters U+0009–U+000D
  and U+001C–U+001F, and the Unicode space, line and paragraph separators. It leaves out U+180E, whose status depends on the Unicode version.
- UUIDs and the clock are not generated: `id` and `now` are parameters.
- ViewModel.TodoViewModel.ClearCompletedTodos: does not model the error the source would report if
  the store failed, because the model's store never fails.
