/** The todo form (src/components/todo/todo-form.tsx): its default values,
    the create-or-update dispatch of `onSubmit`, and the create and update
    mutations run from start to settlement against one cache. */
module TodoForm {
  import opened Wrappers
  import opened TodoSchema
  import opened TodoCache

  /** The form's default values, for editing `todo` or for a new todo. The
      `id` key is always present: `todo?.id` holds `undefined` for a new
      todo, and a form field the user never edits keeps its default. */
  function FormDefaults(todo: Option<Todo>): (d: TodoInput)
    ensures todo.None? ==>
      d.id == Undefined && d.text == "" && d.description == Some("") &&
      d.status == NOT_STARTED && d.active == Some(true)
    ensures todo.Some? ==>
      d.id.Read() == todo.value.id && !d.id.Absent? && d.text == todo.value.text &&
      d.status == todo.value.status && d.active == Some(todo.value.active)
    ensures d.createdAt == None && d.updatedAt == None
  {
    match todo
    case None =>
      TodoInput(Undefined, "", Some(""), Some(true), NOT_STARTED, None, None)
    case Some(t) =>
      // `todo.description || ""` turns NULL into the empty string
      TodoInput(if t.id.Some? then Present(t.id.value) else Undefined,
                t.text, Some(t.description.GetOr("")), Some(t.active), t.status, None, None)
  }

  /** Which mutation a submission starts. */
  datatype Intent = CreateIntent(input: TodoInput) | UpdateIntent(input: TodoInput)

  /** `onSubmit`: the update path iff the data carries a truthy id. */
  function OnSubmit(data: TodoInput): (i: Intent)
    ensures i.UpdateIntent? <==> data.id.Present? && data.id.value != ""
    ensures i.input == data
  {
    if Truthy(data.id.Read()) then UpdateIntent(data) else CreateIntent(data)
  }

  /** On validated data (when the UUID check rejects the empty string) the
      create path receives no id value: the optimistic todo carries the
      temporary id when the `id` key is absent, and an `undefined` id when
      the key holds `undefined`. */
  lemma CreatePathId(data: TodoInput, isUuid: string -> bool, tempToken: string, now: nat)
    requires TodoInputIssues(data, isUuid) == [] && !isUuid("")
    requires OnSubmit(data).CreateIntent?
    ensures !data.id.Present?
    ensures OptimisticTodo(TempId(tempToken), data, now).id ==
      if data.id.Absent? then Some(TempId(tempToken)) else None
  {
  }

  /** As written, the new-todo form loses the temporary id: its `id` key holds
      `undefined`, the submission takes the create path, and the spread
      copies `undefined` over the temporary id. */
  lemma NewFormLosesTempId(data: TodoInput, tempToken: string, now: nat)
    requires data.id == FormDefaults(None).id
    ensures OnSubmit(data).CreateIntent?
    ensures OptimisticTodo(TempId(tempToken), data, now).id == None
  {
  }

  /** With the temporary id written after the spread, every optimistic todo
      of the create path, the new-todo form's included, carries a `temp-` id. */
  lemma IntendedKeepsTempId(data: TodoInput, tempToken: string, now: nat)
    ensures IntendedOptimisticTodo(TempId(tempToken), data, now).id == Some(TempId(tempToken))
    ensures TEMP_PREFIX <= IntendedOptimisticTodo(TempId(tempToken), data, now).id.value
  {
  }

  /** Without validation an empty id takes the create path and, spread after
      the temporary id, replaces it. */
  lemma EmptyIdReplacesTempId(data: TodoInput, tempToken: string, now: nat)
    requires data.id == Present("")
    ensures OnSubmit(data).CreateIntent?
    ensures OptimisticTodo(TempId(tempToken), data, now).id == Some("")
  {
  }

  /** An empty form starts a create; the form of an existing todo with a
      non-empty id starts an update of that todo. */
  lemma DefaultsDispatch(todo: Todo)
    ensures OnSubmit(FormDefaults(None)).CreateIntent?
    ensures todo.id.Some? && todo.id.value != "" ==>
      OnSubmit(FormDefaults(Some(todo))) == UpdateIntent(FormDefaults(Some(todo)))
  {
  }

  /** Submitting the edit form of a todo unchanged merges back the same todo
      with a refreshed modification time, except that a NULL description
      becomes the empty string. */
  lemma UnchangedEditOnlyRefreshes(t: Todo, now: nat)
    ensures MergeTodo(t, FormDefaults(Some(t)), now) ==
      t.(updatedAt := now, description := Some(t.description.GetOr("")))
  {
  }

  /** A create that fails restores a list that was present exactly. On an
      absent list the snapshot is absent, restoring it writes nothing, and
      the optimistic todo stays as the only entry. */
  method CreateThenFail(initial: Option<seq<Todo>>, variables: TodoInput, tempToken: string, now: nat)
    returns (final: Option<seq<Todo>>, optimistic: Todo)
    ensures optimistic == OptimisticTodo(TempId(tempToken), variables, now)
    ensures initial.Some? ==> final == initial
    ensures initial.None? ==> final == Some([optimistic])
  {
    var cache := new TodoCache(initial);
    var ctx := cache.CreateOnMutate(variables, tempToken, now);
    optimistic := ctx.optimisticTodo;
    cache.CreateOnError(ctx);
    final := cache.list;
  }

  /** A create that succeeds leaves the created row first and the old list
      after it, provided the old list has no entry with the optimistic id.
      This holds whether the optimistic id is the temporary id (no `id` key)
      or `undefined` (an `id` key holding `undefined`): success matches by
      strict equality either way. Ids stay unique when the created row's id
      is new. */
  method CreateThenSucceed(initial: Option<seq<Todo>>, variables: TodoInput, tempToken: string, now: nat, created: Todo)
    returns (final: Option<seq<Todo>>, optimistic: Todo)
    requires !variables.id.Present?
    requires initial.Some? ==> !Contains(initial.value, OptimisticTodo(TempId(tempToken), variables, now).id)
    ensures variables.id.Absent? ==> optimistic.id == Some(TempId(tempToken)) && TEMP_PREFIX <= optimistic.id.value
    ensures variables.id.Undefined? ==> optimistic.id == None
    ensures final == Some([created] + initial.GetOr([]))
    ensures initial.Some? && UniqueIds(initial.value) && !Contains(initial.value, created.id) ==>
      UniqueIds(final.value)
  {
    var cache := new TodoCache(initial);
    var ctx := cache.CreateOnMutate(variables, tempToken, now);
    optimistic := ctx.optimisticTodo;
    ghost var projected := cache.list.value;
    assert projected == [optimistic] + initial.GetOr([]);
    cache.CreateOnSuccess(created, ctx);
    ReplacePrepended(initial.GetOr([]), optimistic, created);
    final := cache.list;
    if initial.Some? && UniqueIds(initial.value) && !Contains(initial.value, created.id) {
      forall i, j | 0 <= i < j < |final.value| ensures final.value[i].id != final.value[j].id {
        if i == 0 {
          assert final.value[j] == initial.value[j - 1];
        } else {
          assert final.value[i] == initial.value[i - 1] && final.value[j] == initial.value[j - 1];
        }
      }
    }
  }

  /** An update that fails leaves the list exactly as it was. */
  method UpdateThenFail(initial: Option<seq<Todo>>, variables: TodoInput, now: nat)
    returns (final: Option<seq<Todo>>)
    ensures final == initial
  {
    var cache := new TodoCache(initial);
    var ctx := cache.UpdateOnMutate(variables, now);
    cache.UpdateOnError(ctx);
    final := cache.list;
  }

  /** An update that succeeds with the server's row for the requested id
      leaves that row wholesale in place of the old entry (the merged
      optimistic version leaves no trace) and invalidates exactly its
      `byId` entry. As written, an absent list becomes `[updated]`. */
  method UpdateThenSucceed(initial: Option<seq<Todo>>, variables: TodoInput, now: nat, updated: Todo)
    returns (final: Option<seq<Todo>>, invalidated: set<Option<string>>)
    requires variables.id.Read() == updated.id
    ensures initial.None? ==> final == Some([updated])
    ensures initial.Some? ==> final == Some(ReplaceById(initial.value, updated.id, updated))
    ensures invalidated == {updated.id}
  {
    var cache := new TodoCache(initial);
    var ctx := cache.UpdateOnMutate(variables, now);
    cache.UpdateOnSuccess(updated);
    if initial.Some? {
      ReplaceSupersedesMerge(initial.value, variables, now, updated);
    }
    final, invalidated := cache.list, cache.invalidatedById;
  }

  /** The update projection changes only the entries with the requested id,
      and leaves a list without that id, or an absent list, unchanged. */
  method UpdateProjection(initial: Option<seq<Todo>>, variables: TodoInput, now: nat)
    returns (projected: Option<seq<Todo>>, snapshot: Option<seq<Todo>>)
    ensures snapshot == initial
    ensures initial.None? ==> projected == None
    ensures initial.Some? ==> projected.Some? && |projected.value| == |initial.value|
    ensures initial.Some? ==> forall i :: 0 <= i < |initial.value| ==>
      projected.value[i] == if HasId(initial.value[i], variables.id.Read())
        then MergeTodo(initial.value[i], variables, now) else initial.value[i]
    ensures initial.Some? && !Contains(initial.value, variables.id.Read()) ==> projected == initial
  {
    var cache := new TodoCache(initial);
    var ctx := cache.UpdateOnMutate(variables, now);
    if initial.Some? && !Contains(initial.value, variables.id.Read()) {
      MergeAbsentIsIdentity(initial.value, variables, now);
    }
    projected, snapshot := cache.list, ctx.previousData;
  }
}
