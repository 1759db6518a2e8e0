/** The delete button of a rendered todo (src/components/todo/todo-delete.tsx):
    the mutation it issues and the delete mutation run from start to
    settlement against one cache. */
module TodoDelete {
  import opened Wrappers
  import opened TodoSchema
  import opened TodoCache

  /** `handleDelete`: the variables `{ id: todo.id }` of the delete mutation. */
  function DeleteVariables(todo: Todo): (v: TodoIdInput)
    ensures v.id.Read() == todo.id
    ensures forall t: Todo :: HasId(t, v.id.Read()) <==> t.id == todo.id
  {
    TodoIdInput(if todo.id.Some? then Present(todo.id.value) else Undefined)
  }

  /** Deleting a rendered todo from a list holding it takes it out of the
      list; with unique ids exactly one entry goes. */
  lemma DeleteRemovesRendered(xs: seq<Todo>, todo: Todo)
    requires todo in xs
    ensures todo !in RemoveById(xs, DeleteVariables(todo).id.Read())
    ensures UniqueIds(xs) ==> |RemoveById(xs, DeleteVariables(todo).id.Read())| == |xs| - 1
  {
    if UniqueIds(xs) {
      var k :| 0 <= k < |xs| && xs[k] == todo;
      RemoveUniqueDropsOne(xs, todo.id);
    }
  }

  /** A delete that fails leaves the list exactly as it was (an absent list
      is never written, neither by the projection nor by the restore). */
  method DeleteThenFail(initial: Option<seq<Todo>>, todo: Todo)
    returns (final: Option<seq<Todo>>)
    ensures final == initial
  {
    var cache := new TodoCache(initial);
    var ctx := cache.DeleteOnMutate(DeleteVariables(todo));
    cache.DeleteOnError(ctx);
    final := cache.list;
  }

  /** A delete that succeeds: the snapshot is the list before the
      projection, no entry with the id remains, the others keep their
      order, an id that is absent changes nothing, an absent list stays
      absent, and the success handler writes nothing further. The app
      navigates to `/` iff it is on a todo detail page. */
  method DeleteThenSucceed(initial: Option<seq<Todo>>, todo: Todo, deleted: Todo, pathname: string)
    returns (snapshot: Option<seq<Todo>>, final: Option<seq<Todo>>, navigateTo: Option<string>)
    ensures snapshot == initial
    ensures initial.None? ==> final == None
    ensures initial.Some? ==> final.Some? && forall t :: t in final.value <==> t in initial.value && t.id != todo.id
    ensures initial.Some? ==> final == Some(RemoveById(initial.value, todo.id))
    ensures initial.Some? && !Contains(initial.value, todo.id) ==> final == initial
    ensures navigateTo == if IsOnTodoDetailPage(pathname) then Some("/") else None
  {
    var cache := new TodoCache(initial);
    var ctx := cache.DeleteOnMutate(DeleteVariables(todo));
    snapshot := ctx.previousData;
    navigateTo := cache.DeleteOnSuccess(deleted, pathname);
    final := cache.list;
  }
}
