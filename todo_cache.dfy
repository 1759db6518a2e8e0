/** The client-side query cache entry holding the todo list, and the
    optimistic-update handlers of the create, update and delete mutations
    (src/components/todo/todo-form.tsx, src/components/todo/todo-delete.tsx).

    Each handler runs as one atomic step: snapshot the shared list entry,
    write the optimistic projection, and on settlement either commit the
    server's row or restore the snapshot. The projections are the pure
    functions below. Writing an absent (`undefined`) value to the entry is
    refused by the cache, so such a write leaves the entry as it was. */
module TodoCache {
  import opened Wrappers
  import opened TodoSchema

  // ---------------------------------------------------------------------
  // Identifiers
  // ---------------------------------------------------------------------

  const TEMP_PREFIX := "temp-"

  /** The temporary id of an optimistic todo. `token` stands for the
      time-and-random part, which is not modelled. */
  function TempId(token: string): (id: string)
    ensures TEMP_PREFIX <= id
  {
    TEMP_PREFIX + token
  }

  /** `todo.id === id`, where either side may be `undefined`. */
  predicate HasId(t: Todo, id: Option<string>)
  {
    t.id == id
  }

  /** Some entry of `xs` has the id `id`. */
  predicate Contains(xs: seq<Todo>, id: Option<string>)
  {
    exists i :: 0 <= i < |xs| && xs[i].id == id
  }

  /** No two entries share an id. */
  predicate UniqueIds(xs: seq<Todo>)
  {
    forall i, j :: 0 <= i < j < |xs| ==> xs[i].id != xs[j].id
  }

  // ---------------------------------------------------------------------
  // Projections
  // ---------------------------------------------------------------------

  /** The optimistic todo of a create:
      `{ id: tempId, active: variables.active ?? false, ...variables,
         description: variables.description ?? null, createdAt: now, updatedAt: now }`.
      The spread comes after the temporary id, so an `id` key in the
      variables, even one holding `undefined`, replaces it. */
  function OptimisticTodo(tempId: string, v: TodoInput, now: nat): (t: Todo)
    ensures v.id.Absent? ==> t.id == Some(tempId)
    ensures v.id.Undefined? ==> t.id == None
    ensures v.id.Present? ==> t.id == Some(v.id.value)
    ensures t.text == v.text && t.description == v.description && t.status == v.status
    ensures v.active.None? ==> !t.active
    ensures v.active.Some? ==> t.active == v.active.value
    ensures t.createdAt == now && t.updatedAt == now
  {
    Todo(
      match v.id
      case Absent => Some(tempId)
      case Undefined => None
      case Present(s) => Some(s),
      v.text,
      v.description,
      v.active.GetOr(false),
      v.status,
      now,
      now)
  }

  /** The optimistic todo with the temporary id written after the spread,
      so that it always carries the temporary id. It agrees with
      `OptimisticTodo` whenever the variables have no `id` key. */
  function IntendedOptimisticTodo(tempId: string, v: TodoInput, now: nat): (t: Todo)
    ensures t.id == Some(tempId)
    ensures t == OptimisticTodo(tempId, v, now).(id := Some(tempId))
    ensures v.id.Absent? ==> t == OptimisticTodo(tempId, v, now)
  {
    Todo(Some(tempId), v.text, v.description, v.active.GetOr(false), v.status, now, now)
  }

  /** The create projection: the new todo first, then the old list (an
      absent list counts as empty). */
  function Prepend(current: Option<seq<Todo>>, t: Todo): (r: seq<Todo>)
    ensures |r| >= 1 && r[0] == t
    ensures current.None? ==> r == [t]
    ensures current.Some? ==> r[1..] == current.value
  {
    [t] + current.GetOr([])
  }

  /** `xs.map(todo => todo.id === id ? t : todo)`. */
  function ReplaceById(xs: seq<Todo>, id: Option<string>, t: Todo): (r: seq<Todo>)
    ensures |r| == |xs|
    ensures forall i :: 0 <= i < |xs| && xs[i].id == id ==> r[i] == t
    ensures forall i :: 0 <= i < |xs| && xs[i].id != id ==> r[i] == xs[i]
  {
    if xs == [] then []
    else [if xs[0].id == id then t else xs[0]] + ReplaceById(xs[1..], id, t)
  }

  /** `{ ...todo, ...variables, updatedAt: now }`: every key present in the
      variables overrides, the rest of the todo is kept, and the
      modification time is refreshed. */
  function MergeTodo(t: Todo, v: TodoInput, now: nat): (r: Todo)
    ensures r.updatedAt == now
    ensures r.text == v.text && r.status == v.status
    ensures HasId(t, v.id.Read()) ==> r.id == t.id
    ensures v.id.Absent? ==> r.id == t.id
    ensures r.description == (if v.description.Some? then v.description else t.description)
    ensures r.active == v.active.GetOr(t.active)
    ensures r.createdAt == v.createdAt.GetOr(t.createdAt)
  {
    Todo(
      match v.id
      case Absent => t.id
      case Undefined => None
      case Present(s) => Some(s),
      v.text,
      if v.description.Some? then v.description else t.description,
      v.active.GetOr(t.active),
      v.status,
      v.createdAt.GetOr(t.createdAt),
      now)
  }

  /** The update projection:
      `xs.map(todo => todo.id === variables.id ? merged : todo)`. */
  function MergeById(xs: seq<Todo>, v: TodoInput, now: nat): (r: seq<Todo>)
    ensures |r| == |xs|
    ensures forall i :: 0 <= i < |xs| && HasId(xs[i], v.id.Read()) ==> r[i] == MergeTodo(xs[i], v, now)
    ensures forall i :: 0 <= i < |xs| && !HasId(xs[i], v.id.Read()) ==> r[i] == xs[i]
  {
    if xs == [] then []
    else [if HasId(xs[0], v.id.Read()) then MergeTodo(xs[0], v, now) else xs[0]] + MergeById(xs[1..], v, now)
  }

  /** The delete projection: `xs.filter(item => item.id !== id)`. */
  function RemoveById(xs: seq<Todo>, id: Option<string>): (r: seq<Todo>)
    ensures |r| <= |xs|
    ensures forall i :: 0 <= i < |r| ==> !HasId(r[i], id)
    ensures forall t :: t in r <==> t in xs && !HasId(t, id)
    ensures (forall i :: 0 <= i < |xs| ==> !HasId(xs[i], id)) ==> r == xs
  {
    if xs == [] then []
    else
      var rest := RemoveById(xs[1..], id);
      assert forall t :: t in xs <==> t == xs[0] || t in xs[1..];
      if HasId(xs[0], id) then rest else [xs[0]] + rest
  }

  /** The list after update success, as written: the server row replaces the
      entries with its id, and an absent list becomes `[updated]`. */
  function UpdateSuccessList(current: Option<seq<Todo>>, updated: Todo): (r: Option<seq<Todo>>)
    ensures r.Some?
    ensures current.None? ==> r.value == [updated]
    ensures current.Some? ==> r.value == ReplaceById(current.value, updated.id, updated)
  {
    match current
    case None => Some([updated])
    case Some(xs) => Some(ReplaceById(xs, updated.id, updated))
  }

  /** The list after update success as evidently intended: an absent list is
      left absent, so no partial list is ever made up from one row. */
  function IntendedUpdateSuccessList(current: Option<seq<Todo>>, updated: Todo): (r: Option<seq<Todo>>)
    ensures r.None? <==> current.None?
    ensures current.Some? ==> r.Some? && |r.value| == |current.value|
    ensures current.Some? ==> r == UpdateSuccessList(current, updated)
  {
    match current
    case None => None
    case Some(xs) => Some(ReplaceById(xs, updated.id, updated))
  }

  /** As written, an update that succeeds while the list is absent (the
      detail page, whose loader fetches only `byId`) stores a one-row list,
      which a later `ensureQueryData` of the list serves as if it were fetched;
      the intended version leaves the list absent. */
  lemma UpdateSuccessMakesUpList(updated: Todo)
    ensures UpdateSuccessList(None, updated) == Some([updated])
    ensures IntendedUpdateSuccessList(None, updated) == None
  {
  }

  /** `location.pathname.startsWith("/todo/")`. */
  predicate IsOnTodoDetailPage(pathname: string)
  {
    "/todo/" <= pathname
  }

  // ---------------------------------------------------------------------
  // Properties of the projections
  // ---------------------------------------------------------------------

  /** Replacing an id that is absent changes nothing. */
  lemma ReplaceAbsentIsIdentity(xs: seq<Todo>, id: Option<string>, t: Todo)
    requires !Contains(xs, id)
    ensures ReplaceById(xs, id, t) == xs
  {
  }

  /** Updating with an id that no entry has changes nothing. */
  lemma MergeAbsentIsIdentity(xs: seq<Todo>, v: TodoInput, now: nat)
    requires !Contains(xs, v.id.Read())
    ensures MergeById(xs, v, now) == xs
  {
  }

  /** Replacing the optimistic todo at the head of a list in which its id
      occurs nowhere else yields the created row followed by the old list. */
  lemma ReplacePrepended(xs: seq<Todo>, t: Todo, created: Todo)
    requires !Contains(xs, t.id)
    ensures ReplaceById([t] + xs, t.id, created) == [created] + xs
  {
  }

  /** The server row of an update supersedes the merged optimistic version
      of the same todo entirely. */
  lemma ReplaceSupersedesMerge(xs: seq<Todo>, v: TodoInput, now: nat, updated: Todo)
    requires v.id.Read() == updated.id
    ensures ReplaceById(MergeById(xs, v, now), updated.id, updated) == ReplaceById(xs, updated.id, updated)
  {
  }

  /** Filtering distributes over concatenation, so the entries that remain
      keep their relative order. */
  lemma {:induction false} RemoveDistributes(a: seq<Todo>, b: seq<Todo>, id: Option<string>)
    ensures RemoveById(a + b, id) == RemoveById(a, id) + RemoveById(b, id)
  {
    if a == [] {
      assert a + b == b;
    } else {
      assert (a + b)[0] == a[0];
      assert (a + b)[1..] == a[1..] + b;
      RemoveDistributes(a[1..], b, id);
    }
  }

  /** Removing the id of an entry from a list with unique ids removes that
      entry and nothing else. */
  lemma {:induction false} RemoveUniqueDropsOne(xs: seq<Todo>, id: Option<string>)
    requires UniqueIds(xs) && Contains(xs, id)
    ensures |RemoveById(xs, id)| == |xs| - 1
  {
    if xs[0].id == id {
      assert !Contains(xs[1..], id) by {
        forall i | 0 <= i < |xs[1..]| ensures xs[1..][i].id != id {
          assert xs[1..][i] == xs[i + 1];
        }
      }
    } else {
      var k :| 0 <= k < |xs| && xs[k].id == id;
      assert xs[1..][k - 1].id == id;
      assert UniqueIds(xs[1..]) by {
        forall i, j | 0 <= i < j < |xs[1..]| ensures xs[1..][i].id != xs[1..][j].id {
          assert xs[1..][i] == xs[i + 1] && xs[1..][j] == xs[j + 1];
        }
      }
      RemoveUniqueDropsOne(xs[1..], id);
    }
  }

  /** Replacing one entry by a row whose id is new keeps the ids unique. */
  lemma ReplaceKeepsUnique(xs: seq<Todo>, id: Option<string>, t: Todo)
    requires UniqueIds(xs) && (t.id == id || !Contains(xs, t.id))
    ensures UniqueIds(ReplaceById(xs, id, t))
  {
  }

  // ---------------------------------------------------------------------
  // Handler contexts
  // ---------------------------------------------------------------------

  /** What create's `onMutate` returns: the snapshot and the optimistic todo. */
  datatype CreateContext = CreateContext(previousData: Option<seq<Todo>>, optimisticTodo: Todo)

  /** What update's and delete's `onMutate` return: the snapshot. */
  datatype SnapshotContext = SnapshotContext(previousData: Option<seq<Todo>>)

  // ---------------------------------------------------------------------
  // The cache
  // ---------------------------------------------------------------------

  /** The query cache as the handlers see it: the one `todo.list` entry that
      all three mutations overwrite (absent until fetched), and the set of
      ids whose `todo.byId({ id })` entry has been invalidated. */
  class TodoCache {
    var list: Option<seq<Todo>>
    var invalidatedById: set<Option<string>>

    constructor (initial: Option<seq<Todo>>)
      ensures list == initial && invalidatedById == {}
    {
      list := initial;
      invalidatedById := {};
    }

    /** Create `onMutate`: snapshot, then prepend the optimistic todo. */
    method CreateOnMutate(variables: TodoInput, tempToken: string, now: nat) returns (ctx: CreateContext)
      modifies this`list
      ensures ctx.previousData == old(list)
      ensures ctx.optimisticTodo == OptimisticTodo(TempId(tempToken), variables, now)
      ensures list == Some(Prepend(old(list), ctx.optimisticTodo))
    {
      var previousData := list;
      var tempId := TempId(tempToken);
      var optimisticTodo := OptimisticTodo(tempId, variables, now);
      list := Some(Prepend(list, optimisticTodo));
      ctx := CreateContext(previousData, optimisticTodo);
    }

    /** Create `onError`: write the snapshot back; an absent snapshot is no
      write at all, so the list stays as it is. */
    method CreateOnError(ctx: CreateContext)
      modifies this`list
      ensures ctx.previousData.Some? ==> list == ctx.previousData
      ensures ctx.previousData.None? ==> list == old(list)
    {
      if ctx.previousData.Some? {
        list := ctx.previousData;
      }
    }

    /** Create `onSuccess`: replace the entries carrying the optimistic id by
      the created row; an absent list becomes `[created]`. */
    method CreateOnSuccess(created: Todo, ctx: CreateContext)
      modifies this`list
      ensures old(list).None? ==> list == Some([created])
      ensures old(list).Some? ==> list == Some(ReplaceById(old(list).value, ctx.optimisticTodo.id, created))
    {
      if list.None? {
        list := Some([created]);
      } else {
        list := Some(ReplaceById(list.value, ctx.optimisticTodo.id, created));
      }
    }

    /** Update `onMutate`: snapshot, then merge the variables into the
      entries with their id; for an absent list the updater returns the
      (equally absent) snapshot, which is no write. */
    method UpdateOnMutate(variables: TodoInput, now: nat) returns (ctx: SnapshotContext)
      modifies this`list
      ensures ctx.previousData == old(list)
      ensures old(list).None? ==> list == None
      ensures old(list).Some? ==> list == Some(MergeById(old(list).value, variables, now))
    {
      var previousData := list;
      if list.Some? {
        list := Some(MergeById(list.value, variables, now));
      }
      ctx := SnapshotContext(previousData);
    }

    /** Update `onError`: write the snapshot back; an absent snapshot is no
      write at all. */
    method UpdateOnError(ctx: SnapshotContext)
      modifies this`list
      ensures ctx.previousData.Some? ==> list == ctx.previousData
      ensures ctx.previousData.None? ==> list == old(list)
    {
      if ctx.previousData.Some? {
        list := ctx.previousData;
      }
    }

    /** Update `onSuccess`: replace the entries with the server row's id by
      that row (an absent list becomes `[updated]`), and invalidate the
      `byId` entry of that id. */
    method UpdateOnSuccess(updated: Todo)
      modifies this`list, this`invalidatedById
      ensures list == UpdateSuccessList(old(list), updated)
      ensures invalidatedById == old(invalidatedById) + {updated.id}
    {
      if list.None? {
        list := Some([updated]);
      } else {
        list := Some(ReplaceById(list.value, updated.id, updated));
      }
      invalidatedById := invalidatedById + {updated.id};
    }

    /** Delete `onMutate`: snapshot, then filter out the entries with the id;
      for an absent list the updater returns the (equally absent) snapshot,
      which is no write. */
    method DeleteOnMutate(variables: TodoIdInput) returns (ctx: SnapshotContext)
      modifies this`list
      ensures ctx.previousData == old(list)
      ensures old(list).None? ==> list == None
      ensures old(list).Some? ==> list == Some(RemoveById(old(list).value, variables.id.Read()))
    {
      var previousData := list;
      if list.Some? {
        list := Some(RemoveById(list.value, variables.id.Read()));
      }
      ctx := SnapshotContext(previousData);
    }

    /** Delete `onError`: write the snapshot back; an absent snapshot is no
      write at all. */
    method DeleteOnError(ctx: SnapshotContext)
      modifies this`list
      ensures ctx.previousData.Some? ==> list == ctx.previousData
      ensures ctx.previousData.None? ==> list == old(list)
    {
      if ctx.previousData.Some? {
        list := ctx.previousData;
      }
    }

    /** Delete `onSuccess`: no cache write; the navigation it asks for, `/`
      exactly when the current page is a todo's detail page. */
    method DeleteOnSuccess(deleted: Todo, pathname: string) returns (navigateTo: Option<string>)
      ensures navigateTo.Some? <==> IsOnTodoDetailPage(pathname)
      ensures navigateTo.Some? ==> navigateTo.value == "/"
    {
      if IsOnTodoDetailPage(pathname) {
        navigateTo := Some("/");
      } else {
        navigateTo := None;
      }
    }
  }
}
