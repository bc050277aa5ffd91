/**
 * The `todos` table (Room DAO). The table is a sequence of rows in storage
 * order with unique ids; `AsMap` is its keyed view. Queries are filters of the
 * rows followed, where the SQL says `ORDER BY`, by a stable sort.
 */
module Dao {
  import opened Wrappers
  import opened Text
  import opened Seqs
  import opened TodoModel
  import opened Data

  /** The first row with key `id`, if any: `SELECT * FROM todos WHERE id = :todoId`. */
  function FindById(rows: seq<TodoEntity>, id: string): (r: Option<TodoEntity>)
    ensures r.Some? ==> r.value in rows && r.value.id == id
    ensures r.None? <==> forall i :: 0 <= i < |rows| ==> rows[i].id != id
  {
    if rows == [] then None
    else if rows[0].id == id then Some(rows[0])
    else FindById(rows[1..], id)
  }

  /** The table as a map from key to row (the first row wins should a key repeat). */
  function AsMap(rows: seq<TodoEntity>): map<string, TodoEntity> {
    if rows == [] then map[] else AsMap(rows[1..])[rows[0].id := rows[0]]
  }

  /** The keyed view and the lookup agree. */
  lemma {:induction false} FindByIdAsMap(rows: seq<TodoEntity>, id: string)
    ensures FindById(rows, id) == if id in AsMap(rows) then Some(AsMap(rows)[id]) else None
  {
    if rows != [] {
      FindByIdAsMap(rows[1..], id);
    }
  }

  /** No two rows share a key: `id` is the table's primary key. */
  predicate UniqueIds(rows: seq<TodoEntity>) {
    rows != [] ==> rows[0].id !in AsMap(rows[1..]) && UniqueIds(rows[1..])
  }

  /** The primary-key invariant, stated over positions. */
  lemma {:induction false} UniqueIdsAt(rows: seq<TodoEntity>, i: int, j: int)
    requires UniqueIds(rows) && 0 <= i < j < |rows|
    ensures rows[i].id != rows[j].id
  {
    if i == 0 {
      FindByIdAsMap(rows[1..], rows[0].id);
      assert rows[1..][j - 1] == rows[j];
    } else {
      UniqueIdsAt(rows[1..], i - 1, j - 1);
    }
  }

  lemma {:induction false} AsMapCons(a: TodoEntity, t: seq<TodoEntity>)
    ensures AsMap([a] + t) == AsMap(t)[a.id := a]
  {
    assert ([a] + t)[0] == a;
    assert ([a] + t)[1..] == t;
  }

  lemma {:induction false} UniqueIdsCons(a: TodoEntity, t: seq<TodoEntity>)
    ensures UniqueIds([a] + t) <==> a.id !in AsMap(t) && UniqueIds(t)
  {
    assert ([a] + t)[0] == a;
    assert ([a] + t)[1..] == t;
  }

  /** The keys of the table are the ids of its rows. */
  lemma {:induction false} AsMapKeys(rows: seq<TodoEntity>)
    ensures forall e :: e in rows ==> e.id in AsMap(rows)
    ensures forall id :: id in AsMap(rows) ==> AsMap(rows)[id] in rows && AsMap(rows)[id].id == id
  {
    if rows != [] {
      AsMapKeys(rows[1..]);
      assert rows == [rows[0]] + rows[1..];
    }
  }

  /** Under unique keys, every row is what the keyed view holds for its id. */
  lemma {:induction false} AsMapHoldsRows(rows: seq<TodoEntity>)
    requires UniqueIds(rows)
    ensures forall e :: e in rows ==> e.id in AsMap(rows) && AsMap(rows)[e.id] == e
  {
    if rows != [] {
      AsMapHoldsRows(rows[1..]);
      FindByIdAsMap(rows[1..], rows[0].id);
      assert rows == [rows[0]] + rows[1..];
    }
  }

  // ----- row-level mutations -----

  function IdIsNot(id: string): TodoEntity -> bool {
    (e: TodoEntity) => e.id != id
  }

  /** The rows without the one keyed `id`. */
  function WithoutId(rows: seq<TodoEntity>, id: string): seq<TodoEntity> {
    Filter(rows, IdIsNot(id))
  }

  function ReplacingRow(e: TodoEntity): TodoEntity -> TodoEntity {
    (r: TodoEntity) => if r.id == e.id then e else r
  }

  /** The rows with the one keyed `e.id`, if any, overwritten in place by `e`. */
  function ReplaceById(rows: seq<TodoEntity>, e: TodoEntity): seq<TodoEntity> {
    Map(rows, ReplacingRow(e))
  }

  predicate IsIncomplete(e: TodoEntity) {
    !e.isCompleted
  }

  /** The incomplete rows of a keyed table. */
  function IncompleteOnly(m: map<string, TodoEntity>): (r: map<string, TodoEntity>)
    ensures forall id :: id in r <==> id in m && !m[id].isCompleted
    ensures forall id :: id in r ==> r[id] == m[id]
  {
    map id | id in m && !m[id].isCompleted :: m[id]
  }

  /** A filter keeps no key that was not there. */
  lemma {:induction false} FilterKeys(rows: seq<TodoEntity>, p: TodoEntity -> bool)
    ensures AsMap(Filter(rows, p)).Keys <= AsMap(rows).Keys
  {
    if rows != [] {
      var a, t := rows[0], rows[1..];
      FilterKeys(t, p);
      FilterUnfold(rows, p);
      if p(a) {
        AsMapCons(a, Filter(t, p));
      }
    }
  }

  /** `Filter` on a non-empty table, first row split off. */
  lemma {:induction false} FilterUnfold(rows: seq<TodoEntity>, p: TodoEntity -> bool)
    requires rows != []
    ensures Filter(rows, p) == if p(rows[0]) then [rows[0]] + Filter(rows[1..], p) else Filter(rows[1..], p)
    ensures AsMap(rows) == AsMap(rows[1..])[rows[0].id := rows[0]]
    ensures UniqueIds(rows) <==> rows[0].id !in AsMap(rows[1..]) && UniqueIds(rows[1..])
  {
    assert rows == [rows[0]] + rows[1..];
    FilterCons(rows[0], rows[1..], p);
    if !p(rows[0]) {
      assert [] + Filter(rows[1..], p) == Filter(rows[1..], p);
    }
  }

  /** A filter of a keyed table keeps its keys unique. */
  lemma {:induction false} FilterUnique(rows: seq<TodoEntity>, p: TodoEntity -> bool)
    requires UniqueIds(rows)
    ensures UniqueIds(Filter(rows, p))
  {
    if rows != [] {
      var a, t := rows[0], rows[1..];
      FilterUnique(t, p);
      FilterKeys(t, p);
      FilterUnfold(rows, p);
      if p(a) {
        UniqueIdsCons(a, Filter(t, p));
      }
    }
  }

  /** Removing the row keyed `id` removes exactly that key. */
  lemma {:induction false} AsMapWithoutId(rows: seq<TodoEntity>, id: string)
    ensures AsMap(WithoutId(rows, id)) == AsMap(rows) - {id}
  {
    if rows != [] {
      var a, t := rows[0], rows[1..];
      AsMapWithoutId(t, id);
      FilterUnfold(rows, IdIsNot(id));
      if a.id != id {
        AsMapCons(a, WithoutId(t, id));
      }
    }
  }

  /** Appending a row under a fresh key adds exactly that key. */
  lemma {:induction false} AsMapAppendFresh(rows: seq<TodoEntity>, e: TodoEntity)
    requires e.id !in AsMap(rows)
    ensures AsMap(rows + [e]) == AsMap(rows)[e.id := e]
    ensures UniqueIds(rows) ==> UniqueIds(rows + [e])
  {
    if rows == [] {
      assert [] + [e] == [e];
      assert [e][1..] == [];
    } else {
      var a, t := rows[0], rows[1..];
      assert rows + [e] == [a] + (t + [e]);
      AsMapCons(a, t + [e]);
      AsMapAppendFresh(t, e);
      UniqueIdsCons(a, t + [e]);
    }
  }

  /** REPLACE semantics on the keyed view: dropping the old row and appending `e` rebinds `e.id`. */
  lemma AsMapReplacing(rows: seq<TodoEntity>, e: TodoEntity)
    requires UniqueIds(rows)
    ensures UniqueIds(WithoutId(rows, e.id) + [e])
    ensures AsMap(WithoutId(rows, e.id) + [e]) == AsMap(rows)[e.id := e]
  {
    var kept := WithoutId(rows, e.id);
    AsMapWithoutId(rows, e.id);
    FilterUnique(rows, IdIsNot(e.id));
    AsMapAppendFresh(kept, e);
    RemoveThenSet(AsMap(rows), e.id, e);
  }

  /** Removing a key and then binding it is the same as binding it. */
  lemma RemoveThenSet(m: map<string, TodoEntity>, k: string, v: TodoEntity)
    ensures (m - {k})[k := v] == m[k := v]
  {
  }

  /** Overwriting in place changes the value under `e.id` only, and only if the key exists. */
  lemma {:induction false} AsMapReplaceById(rows: seq<TodoEntity>, e: TodoEntity)
    ensures AsMap(ReplaceById(rows, e)) == if e.id in AsMap(rows) then AsMap(rows)[e.id := e] else AsMap(rows)
    ensures UniqueIds(rows) ==> UniqueIds(ReplaceById(rows, e))
  {
    if rows != [] {
      var a, t := rows[0], rows[1..];
      AsMapReplaceById(t, e);
      var a' := ReplacingRow(e)(a);
      assert ReplaceById(rows, e) == [a'] + ReplaceById(t, e);
      AsMapCons(a', ReplaceById(t, e));
      UniqueIdsCons(a', ReplaceById(t, e));
      assert rows == [a] + t;
      UniqueIdsCons(a, t);
    }
  }

  /** A key that is absent leaves the rows untouched by an in-place overwrite. */
  lemma {:induction false} ReplaceByIdAbsent(rows: seq<TodoEntity>, e: TodoEntity)
    requires e.id !in AsMap(rows)
    ensures ReplaceById(rows, e) == rows
  {
    FindByIdAsMap(rows, e.id);
  }

  /** Dropping the completed rows keeps exactly the incomplete keys. */
  lemma {:induction false} AsMapIncomplete(rows: seq<TodoEntity>)
    requires UniqueIds(rows)
    ensures AsMap(Filter(rows, IsIncomplete)) == IncompleteOnly(AsMap(rows))
  {
    if rows != [] {
      var a, t := rows[0], rows[1..];
      AsMapIncomplete(t);
      FilterUnfold(rows, IsIncomplete);
      if !a.isCompleted {
        AsMapCons(a, Filter(t, IsIncomplete));
      }
    }
  }

  // ----- queries -----

  /** The sort key of `ORDER BY createdAt DESC`. */
  function NewestFirst(e: TodoEntity): int {
    -(e.createdAt as int)
  }

  /** The sort key of `ORDER BY dueDate ASC` (every row it sorts has a due date). */
  function SoonestDue(e: TodoEntity): int {
    if e.dueDate.Some? then e.dueDate.value else 0
  }

  function InQuadrant(q: Quadrant): TodoEntity -> bool {
    (e: TodoEntity) => e.quadrant == q
  }

  function MatchesQuery(query: string): TodoEntity -> bool {
    (e: TodoEntity) => Contains(e.title, query) || Contains(e.description, query)
  }

  function DueAfter(now: Long): TodoEntity -> bool {
    (e: TodoEntity) => e.dueDate.Some? && e.dueDate.value > now
  }

  /** `getAllTodos`: every row, newest first. */
  function AllTodos(rows: seq<TodoEntity>): (r: seq<TodoEntity>)
    ensures multiset(r) == multiset(rows)
    ensures forall i, j :: 0 <= i < j < |r| ==> r[i].createdAt >= r[j].createdAt
  {
    var r := SortBy(rows, NewestFirst);
    assert forall i, j :: 0 <= i < j < |r| ==> NewestFirst(r[i]) <= NewestFirst(r[j]);
    r
  }

  /** `getTodosByQuadrant(q)`: exactly the rows in quadrant `q`, newest first. */
  function ByQuadrant(rows: seq<TodoEntity>, q: Quadrant): (r: seq<TodoEntity>)
    ensures multiset(r) == multiset(Filter(rows, InQuadrant(q)))
    ensures forall e :: e in r <==> e in rows && e.quadrant == q
    ensures forall i, j :: 0 <= i < j < |r| ==> r[i].createdAt >= r[j].createdAt
  {
    var r := SortBy(Filter(rows, InQuadrant(q)), NewestFirst);
    ByQuadrantMembers(rows, q);
    assert forall i, j :: 0 <= i < j < |r| ==> NewestFirst(r[i]) <= NewestFirst(r[j]);
    r
  }

  /** Which rows the per-quadrant query returns. */
  lemma ByQuadrantMembers(rows: seq<TodoEntity>, q: Quadrant)
    ensures forall e :: e in SortBy(Filter(rows, InQuadrant(q)), NewestFirst) <==> e in rows && e.quadrant == q
  {
    var f := Filter(rows, InQuadrant(q));
    var r := SortBy(f, NewestFirst);
    FilterMembers(rows, InQuadrant(q));
    forall e ensures e in r <==> e in f {
      assert e in r <==> e in multiset(r);
    }
    forall e | e in f ensures e.quadrant == q {
      var i :| 0 <= i < |f| && f[i] == e;
    }
    forall e | e in rows && e.quadrant == q ensures e in f {
      var i :| 0 <= i < |rows| && rows[i] == e;
    }
  }

  /** The per-quadrant query is the quadrant filter of the full, ordered listing. */
  lemma ByQuadrantFiltersAll(rows: seq<TodoEntity>, q: Quadrant)
    ensures ByQuadrant(rows, q) == Filter(AllTodos(rows), InQuadrant(q))
  {
    FilterSortBy(rows, InQuadrant(q), NewestFirst);
  }

  /** `searchTodos(query)`: the rows whose title or description contains the query, in table order. */
  function Search(rows: seq<TodoEntity>, query: string): (r: seq<TodoEntity>)
    ensures forall e :: e in r <==> e in rows && (Contains(e.title, query) || Contains(e.description, query))
    ensures multiset(r) <= multiset(rows)
  {
    FilterMembers(rows, MatchesQuery(query));
    FilterMultiset(rows, MatchesQuery(query));
    Filter(rows, MatchesQuery(query))
  }

  /** The empty query matches every row. */
  lemma SearchEmptyQuery(rows: seq<TodoEntity>)
    ensures Search(rows, "") == rows
  {
    forall i | 0 <= i < |rows| ensures MatchesQuery("")(rows[i]) {
      ContainsEmpty(rows[i].title);
    }
    FilterKeepsAll(rows, MatchesQuery(""));
  }

  /** `getUpcomingTodos(now)`: the rows due strictly after `now`, soonest first. */
  function Upcoming(rows: seq<TodoEntity>, now: Long): (r: seq<TodoEntity>)
    ensures forall e :: e in r <==> e in rows && e.dueDate.Some? && e.dueDate.value > now
    ensures forall i :: 0 <= i < |r| ==> r[i].dueDate.Some? && r[i].dueDate.value > now
    ensures forall i, j :: 0 <= i < j < |r| ==> r[i].dueDate.value <= r[j].dueDate.value
    ensures multiset(r) == multiset(Filter(rows, DueAfter(now)))
  {
    var r := SortBy(Filter(rows, DueAfter(now)), SoonestDue);
    UpcomingMembers(rows, now);
    r
  }

  /** Which rows the upcoming query returns, and that each of them is due after `now`. */
  lemma {:induction false} UpcomingMembers(rows: seq<TodoEntity>, now: Long)
    ensures var r := SortBy(Filter(rows, DueAfter(now)), SoonestDue);
      && (forall e :: e in r <==> e in rows && e.dueDate.Some? && e.dueDate.value > now)
      && (forall i :: 0 <= i < |r| ==> r[i].dueDate.Some? && r[i].dueDate.value > now)
  {
    var f := Filter(rows, DueAfter(now));
    var r := SortBy(f, SoonestDue);
    FilterMembers(rows, DueAfter(now));
    forall e ensures e in r <==> e in f {
      assert e in r <==> e in multiset(r);
    }
    forall e | e in f ensures e.dueDate.Some? && e.dueDate.value > now {
      var i :| 0 <= i < |f| && f[i] == e;
    }
    forall e | e in rows && e.dueDate.Some? && e.dueDate.value > now ensures e in f {
      var i :| 0 <= i < |rows| && rows[i] == e;
    }
    forall i | 0 <= i < |r| ensures r[i].dueDate.Some? && r[i].dueDate.value > now {
      assert r[i] in r;
    }
  }

  /** The Room DAO over the one `todos` table. */
  class TodoDao {
    var rows: seq<TodoEntity>

    /** The primary-key constraint. */
    ghost predicate Valid()
      reads this
    {
      UniqueIds(rows)
    }

    /** The table as a map from key to row. */
    function Table(): map<string, TodoEntity>
      reads this
    {
      AsMap(rows)
    }

    constructor ()
      ensures Valid() && rows == [] && Table() == map[]
    {
      rows := [];
    }

    /** `getAllTodos`. */
    function GetAllTodos(): (r: seq<TodoEntity>)
      reads this
      ensures multiset(r) == multiset(rows)
      ensures forall i, j :: 0 <= i < j < |r| ==> r[i].createdAt >= r[j].createdAt
    {
      AllTodos(rows)
    }

    /** `getTodosByQuadrant(q)`. */
    function GetTodosByQuadrant(q: Quadrant): (r: seq<TodoEntity>)
      reads this
      ensures multiset(r) == multiset(Filter(rows, InQuadrant(q)))
      ensures forall e :: e in r <==> e in rows && e.quadrant == q
      ensures forall i, j :: 0 <= i < j < |r| ==> r[i].createdAt >= r[j].createdAt
    {
      ByQuadrant(rows, q)
    }

    /** `getTodoById`: the row stored under `id`, or none. */
    function GetTodoById(id: string): (r: Option<TodoEntity>)
      reads this
      ensures r == if id in Table() then Some(Table()[id]) else None
    {
      FindByIdAsMap(rows, id);
      FindById(rows, id)
    }

    /** `searchTodos(query)`. */
    function SearchTodos(query: string): (r: seq<TodoEntity>)
      reads this
      ensures forall e :: e in r <==> e in rows && (Contains(e.title, query) || Contains(e.description, query))
      ensures multiset(r) <= multiset(rows)
    {
      Search(rows, query)
    }

    /** `getUpcomingTodos(now)`. */
    function GetUpcomingTodos(now: Long): (r: seq<TodoEntity>)
      reads this
      ensures forall e :: e in r <==> e in rows && e.dueDate.Some? && e.dueDate.value > now
      ensures forall i, j :: 0 <= i < j < |r| ==> r[i].dueDate.Some? && r[i].dueDate.value <= r[j].dueDate.value
      ensures multiset(r) == multiset(Filter(rows, DueAfter(now)))
    {
      Upcoming(rows, now)
    }

    /** `insertTodo` with `OnConflictStrategy.REPLACE`: drops any row keyed `e.id`, then appends `e`. */
    method InsertTodo(e: TodoEntity)
      requires Valid()
      modifies this
      ensures Valid()
      ensures rows == WithoutId(old(rows), e.id) + [e]
      ensures Table() == old(Table())[e.id := e]
    {
      AsMapReplacing(rows, e);
      rows := WithoutId(rows, e.id) + [e];
    }

    /** `updateTodo`: overwrites the row keyed `e.id` in place; with no such row nothing changes. */
    method UpdateTodo(e: TodoEntity)
      requires Valid()
      modifies this
      ensures Valid()
      ensures rows == ReplaceById(old(rows), e)
      ensures Table() == if e.id in old(Table()) then old(Table())[e.id := e] else old(Table())
      ensures e.id !in old(Table()) ==> rows == old(rows)
    {
      AsMapReplaceById(rows, e);
      if e.id !in AsMap(rows) {
        ReplaceByIdAbsent(rows, e);
      }
      rows := ReplaceById(rows, e);
    }

    /** `deleteTodo`: removes the row keyed `e.id`, whatever its other fields. */
    method DeleteTodo(e: TodoEntity)
      requires Valid()
      modifies this
      ensures Valid()
      ensures rows == WithoutId(old(rows), e.id)
      ensures Table() == old(Table()) - {e.id}
    {
      AsMapWithoutId(rows, e.id);
      FilterUnique(rows, IdIsNot(e.id));
      rows := WithoutId(rows, e.id);
    }

    /** `deleteCompletedTodos`: `DELETE FROM todos WHERE isCompleted = 1`. */
    method DeleteCompletedTodos()
      requires Valid()
      modifies this
      ensures Valid()
      ensures rows == Filter(old(rows), IsIncomplete)
      ensures Table() == IncompleteOnly(old(Table()))
    {
      AsMapIncomplete(rows);
      FilterUnique(rows, IsIncomplete);
      rows := Filter(rows, IsIncomplete);
    }
  }

  /** Deleting the completed rows a second time deletes nothing. */
  lemma DeleteCompletedIdempotent(rows: seq<TodoEntity>)
    ensures Filter(Filter(rows, IsIncomplete), IsIncomplete) == Filter(rows, IsIncomplete)
  {
    FilterIdempotent(rows, IsIncomplete);
  }
}
