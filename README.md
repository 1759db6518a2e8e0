# Optimistic todo cache and schema rules of the F7 Stack todo application

This project models the client-side optimistic cache reconciliation of the F7 Stack todo application, and the small pure rules around it.

## Optimistic cache reconciliation

The todo list lives in one query-cache entry, the `todo.list` key. Three mutations, create, update and delete, all read and overwrite that same shared entry. Each one:

1. takes a snapshot of the list;
2. writes a projection: create prepends an optimistic todo with a `temp-` id, update merges the supplied fields into the matching entries, and delete filters the matching entries out;
3. on success, commits the server's row;
4. on error, writes the snapshot back. The cache ignores a write of an absent value, so an absent snapshot leaves the entry as it is.

`TodoCache.TodoCache` is a class with the list entry (`list`, absent until fetched) and a set of ids whose `todo.byId` entries were invalidated. It has one method per handler. Each handler's postcondition gives the new state in terms of the old state and the pure projections `Prepend`, `ReplaceById`, `MergeById` and `RemoveById`. The lemmas beside the projections prove:

- an unknown id changes nothing;
- replacement happens by the temporary id;
- the server row supersedes the merged version;
- filtering keeps order;
- ids stay unique.

The client methods in `TodoForm` and `TodoDelete` run a mutation from `onMutate` to settlement on a fresh cache. Their contracts state:

- a rollback restores a present snapshot exactly;
- a successful create ends with `[created] + old`;
- a successful update replaces the entry wholesale and invalidates its `byId` key;
- a successful delete removes the entry and asks for navigation to `/` from a detail page.

Other parts of the model:

- the form's default values and the `onSubmit` create-or-update dispatch;
- the todo and user tables with their column defaults, and the todo, signup and login input validation (`TodoSchema`, `AuthSchema`);
- the SEO tag builder (`Seo`);
- the translated tRPC error factory (`TrpcErrors`);
- the query retry predicate, endpoint URL and input transformer (`RootProvider`).

Modelling choices:

- An optional field of a todo or an input is `Option`: `None` is an absent key. The `id` of an input is a three-state `Key` (`Absent`, `Undefined`, `Present`), because the form keeps an `id` key holding `undefined` and an object spread copies that `undefined`. A todo's `id` is `None` only where such a spread wrote `undefined` into an optimistic todo.
- Dates are naturals. The clock, the random part of the temporary id, the UUID format check and the email format check are parameters.
- The optimistic todo carries client-side timestamps (todo-form.tsx:84-85); the server's row replaces them on success.
- Delete success does not invalidate the `todo.byId` entry (todo-delete.tsx:60-66); only update success does (todo-form.tsx:149-153).
- The optimistic todo defaults `active` to false when the create input omits it, while the column default is true. The form always supplies `active`, so this does not show in the application.
- A create that fails on an absent list keeps the optimistic todo as the only entry, because restoring the absent snapshot writes nothing (`TodoForm.CreateThenFail`). The create form is shown on `/`, whose loader fetches the list first, so there the list is present.

## Model

| member | source | states |
|---|---|---|
| TodoSchema.ParseStatus | src/db/schema/todo.ts:6-12 | a string is parsed to a status exactly when it is that status's name |
| TodoSchema.StatusHasThreeValues | src/db/schema/todo.ts:6-10 | exactly NOT_STARTED, IN_PROGRESS and COMPLETED are valid statuses, and every status round-trips through its name |
| TodoSchema.InsertRow | src/db/schema/todo.ts:14-21 | a stored row has the supplied id or the generated one and the text; missing active, status and description default to true, NOT_STARTED and NULL; both timestamps are now |
| TodoSchema.TextIssues | src/db/schema/todo.ts:44 | the text is accepted iff its length is between 3 and 250 inclusive; at most one issue |
| TodoSchema.IdIssues | src/db/schema/todo.ts:43 | an absent or undefined id is accepted; a present id is accepted iff it is a UUID |
| TodoSchema.TodoInputIssues | src/db/schema/todo.ts:42-48 | an input with its required text and status is accepted iff the text length is in 3..250 and any present id is a UUID; an invalid-UUID issue appears iff the id is present and not a UUID |
| TodoSchema.PickId | src/db/schema/todo.ts:50-52 | the id input carries the input's id and nothing else |
| TodoSchema.TodoIdIssues | src/db/schema/todo.ts:50-52 | the id input is accepted iff its id is absent, undefined or a UUID |
| TodoSchema.PickIdKeepsValidity | src/db/schema/todo.ts:42-52 | an accepted create/update input picks to an accepted id input, and the id input fails exactly when the full schema reports an invalid id |
| AuthSchema.InsertUser | src/db/schema/auth.ts:12-27 | a stored user keeps the supplied identity fields; missing emailVerified, role and createdAt default to false, GUEST and now |
| AuthSchema.SignupRow | src/db/schema/auth.ts:87-95 | a signup supplies only name and email; emailVerified, role, image and both timestamps are left out |
| AuthSchema.SignupUserDefaults | src/db/schema/auth.ts:16-19 | every user created from a signup is unverified, a GUEST, has no image, and has both timestamps set to now |
| AuthSchema.SearchCharIn | src/db/schema/auth.ts:100-102 | the left-to-right scan finds a character in the range iff the password contains one |
| AuthSchema.PasswordMessages | src/db/schema/auth.ts:97-102 | no message iff the password has at least 8 characters, an uppercase letter, a lowercase letter and a digit; each rule's own message appears iff that rule fails |
| AuthSchema.SignupIssues | src/db/schema/auth.ts:74-103 | signup is accepted iff the name is non-empty, the email valid and the password strong; "Name is required" iff the name is empty; the password issues are exactly the password messages |
| AuthSchema.LoginIssues | src/db/schema/auth.ts:105-108 | login is accepted iff the email is valid and the password non-empty; "Password is required" iff it is empty |
| AuthSchema.SignupPasswordPassesLogin | src/db/schema/auth.ts:97-108 | credentials accepted by signup are accepted by login |
| Seo.FullTitle | src/utils/seo.ts:25 | the title is APP_NAME iff the given title is absent or empty; otherwise it is APP_NAME, " - ", then the title |
| Seo.SeoTags | src/utils/seo.ts:17-52 | 14 tags without a truthy url and 15 with one, each stated by index: the title tag first, the description and keywords, the three fixed twitter tags, the twitter and og titles equal to the full title, descriptions, images and type with their defaults, the site name; og:url is present iff the url is truthy, and is then last |
| Seo.OneTitleTag | src/utils/seo.ts:28 | the only title entry is the first tag |
| TrpcErrors.ParseCode | src/trpc/errors.ts:9 | each code string names exactly one code, and the code's name is that string |
| TrpcErrors.CreateTranslatedError | src/trpc/errors.ts:7-19 | the error keeps the given code; its message is the translation when a catalogue yields one, and the fallback text otherwise |
| TrpcErrors.CreateError | src/trpc/errors.ts:24-51 | todoNotFound gives NOT_FOUND and invalidInput gives BAD_REQUEST; the three failures, and only they, give INTERNAL_SERVER_ERROR; without a catalogue the message is the kind's fixed text |
| TrpcErrors.FallbackTextsDistinct | src/trpc/errors.ts:25-50 | without a catalogue, different kinds of error have different messages |
| RootProvider.Retry | src/trpc/root-provider.tsx:104-116 | no retry for BAD_REQUEST, FORBIDDEN or UNAUTHORIZED; no retry for any non-negative failure count; a retry only for a negative count with another code |
| RootProvider.RetryByCodeName | src/trpc/root-provider.tsx:106-115 | on the code string: a retry iff it is not BAD_REQUEST, FORBIDDEN or UNAUTHORIZED and the count is negative |
| RootProvider.PredefinedErrorsNeverRetried | src/trpc/root-provider.tsx:104-116 | no error from the predefined table is ever retried |
| RootProvider.GetUrl | src/trpc/root-provider.tsx:53-60 | the URL ends with /api/trpc; its base is empty in a browser, else the public URL if it is set and non-empty, else http://localhost: followed by PORT (default 3000) |
| RootProvider.SerializeInput | src/trpc/root-provider.tsx:24-29 | form data and binaries pass unchanged; other values go through SuperJSON's serialize |
| RootProvider.DeserializeInput | src/trpc/root-provider.tsx:30-35 | form data and binaries pass unchanged; other values go through SuperJSON's deserialize |
| RootProvider.InputRoundTrip | src/trpc/root-provider.tsx:22-38 | deserializing a serialized input gives it back: always for non-JSON values, and for plain values whenever SuperJSON round-trips them |
| TodoCache.TempId | src/components/todo/todo-form.tsx:77 | the temporary id starts with temp- |
| TodoCache.OptimisticTodo | src/components/todo/todo-form.tsx:79-86 | the id is the temporary id when the variables have no id key, undefined when their id key holds undefined, and the given id otherwise; text, status and description are the supplied ones (description NULL when absent); active defaults to false; both timestamps are now |
| TodoCache.Prepend | src/components/todo/todo-form.tsx:88-91 | the optimistic todo is at index 0 and the old list is the tail; an absent list gives the singleton |
| TodoCache.IntendedOptimisticTodo | src/components/todo/todo-form.tsx:79-86 | the optimistic todo with the temporary id always; it equals the as-written one except for the id, and equals it fully when there is no id key |
| TodoCache.ReplaceById | src/components/todo/todo-form.tsx:104-106 | same length; exactly the entries with the id become the new row; all other entries are unchanged |
| TodoCache.MergeTodo | src/components/todo/todo-form.tsx:131 | every supplied field overrides, every unsupplied one is kept, the id of a matching entry stays, and updatedAt is refreshed |
| TodoCache.MergeById | src/components/todo/todo-form.tsx:129-133 | same length and order; the entries with the variables' id are merged; all others are unchanged |
| TodoCache.RemoveById | src/components/todo/todo-delete.tsx:49 | no entry with the id remains; an entry survives iff it was there and has another id; without the id present, the list is unchanged |
| TodoCache.UpdateSuccessList | src/components/todo/todo-form.tsx:145-148 | the update-success list always exists; a present list keeps its length with the server row in place of the entries with its id; an absent list becomes [updated] |
| TodoCache.IntendedUpdateSuccessList | src/components/todo/todo-form.tsx:145-148 | the list is absent iff it was absent; otherwise it is the as-written update-success list, of the same length |
| TodoCache.UpdateSuccessMakesUpList | src/components/todo/todo-form.tsx:146 | as written, an absent list becomes the one-row list [updated]; the intended version leaves it absent |
| TodoCache.ReplaceAbsentIsIdentity | src/components/todo/todo-form.tsx:104-106 | replacing an id that is not in the list leaves the list unchanged |
| TodoCache.MergeAbsentIsIdentity | src/components/todo/todo-form.tsx:128-133 | updating with an id that no entry has leaves the list unchanged |
| TodoCache.ReplacePrepended | src/components/todo/todo-form.tsx:101-107 | replacing the prepended optimistic todo by its id gives the created row followed by the old list |
| TodoCache.ReplaceSupersedesMerge | src/components/todo/todo-form.tsx:145-148 | committing the server row replaces the merged optimistic version as if the merge had never happened |
| TodoCache.RemoveDistributes | src/components/todo/todo-delete.tsx:49 | filtering distributes over concatenation, so the remaining entries keep their relative order |
| TodoCache.RemoveUniqueDropsOne | src/components/todo/todo-delete.tsx:49 | with unique ids, deleting an id that is present removes exactly one entry |
| TodoCache.ReplaceKeepsUnique | src/components/todo/todo-form.tsx:104-106 | a replacement by a row with the same id or a fresh id keeps the ids unique |
| TodoCache.TodoCache.constructor | src/components/todo/todo-form.tsx:51 | the cache starts with the given list and no invalidated byId entries |
| TodoCache.TodoCache.CreateOnMutate | src/components/todo/todo-form.tsx:66-94 | the snapshot is the list before the write; the context holds it together with the optimistic todo; the list becomes the prepend |
| TodoCache.TodoCache.CreateOnError | src/components/todo/todo-form.tsx:95-100 | a present snapshot becomes the list; an absent snapshot is no write and the list stays as it is |
| TodoCache.TodoCache.CreateOnSuccess | src/components/todo/todo-form.tsx:101-107 | the entries with the optimistic id are replaced by the created row; an absent list becomes [created] |
| TodoCache.TodoCache.UpdateOnMutate | src/components/todo/todo-form.tsx:117-137 | the snapshot is the list before the write; the list becomes the merge projection; an absent list stays absent |
| TodoCache.TodoCache.UpdateOnError | src/components/todo/todo-form.tsx:138-143 | a present snapshot becomes the list; an absent snapshot is no write and the list stays as it is |
| TodoCache.TodoCache.UpdateOnSuccess | src/components/todo/todo-form.tsx:144-153 | the list becomes the update-success list of the old one; that id's byId entry is added to the invalidated set |
| TodoCache.TodoCache.DeleteOnMutate | src/components/todo/todo-delete.tsx:37-53 | the snapshot is the list before the write; the list becomes the filter projection; an absent list stays absent |
| TodoCache.TodoCache.DeleteOnError | src/components/todo/todo-delete.tsx:54-59 | a present snapshot becomes the list; an absent snapshot is no write and the list stays as it is |
| TodoCache.TodoCache.DeleteOnSuccess | src/components/todo/todo-delete.tsx:60-66 | nothing in the cache changes; navigation to / is requested iff the pathname starts with /todo/ |
| TodoForm.FormDefaults | src/components/todo/todo-form.tsx:52-61 | a new form has an id key holding undefined, empty text, status NOT_STARTED and active true; an edit form carries the todo's id, text, status and active |
| TodoForm.OnSubmit | src/components/todo/todo-form.tsx:159-173 | the update path is taken iff the data has a truthy id, otherwise the create path; the data is passed on unchanged |
| TodoForm.CreatePathId | src/components/todo/todo-form.tsx:77-86 | validated data on the create path has no id value; its optimistic todo has the temp- id without an id key and an undefined id with one |
| TodoForm.NewFormLosesTempId | src/components/todo/todo-form.tsx:55 | the new-todo form takes the create path and its optimistic todo's id is undefined, not a temp- id |
| TodoForm.IntendedKeepsTempId | src/components/todo/todo-form.tsx:77-86 | with the temporary id written after the spread, every optimistic todo has the temp- id |
| TodoForm.EmptyIdReplacesTempId | src/components/todo/todo-form.tsx:79-82 | unvalidated data with an empty id takes the create path, and that empty id replaces the temporary one |
| TodoForm.DefaultsDispatch | src/components/todo/todo-form.tsx:159-172 | the empty form creates; the form of a todo with a non-empty id updates that todo |
| TodoForm.UnchangedEditOnlyRefreshes | src/components/todo/todo-form.tsx:127-134 | resubmitting an unchanged edit form changes only updatedAt, except that a NULL description becomes "" |
| TodoForm.CreateThenFail | src/components/todo/todo-form.tsx:72-100 | after a failed create a present list equals the snapshot exactly; an absent list ends as the optimistic todo alone |
| TodoForm.CreateThenSucceed | src/components/todo/todo-form.tsx:64-107 | the optimistic id is the temp- id without an id key and undefined with an undefined one; either way success leaves [created] followed by the old list; ids stay unique when the created id is new |
| TodoForm.UpdateThenFail | src/components/todo/todo-form.tsx:117-143 | after a failed update, the list equals the snapshot exactly |
| TodoForm.UpdateThenSucceed | src/components/todo/todo-form.tsx:144-153 | after success, the list is the old list with the server row in place of the entries with its id (an absent list gives [updated]); exactly that id's byId entry is invalidated |
| TodoForm.UpdateProjection | src/components/todo/todo-form.tsx:123-136 | the snapshot is the prior list; the projection has the same length and merges only the entries with the requested id; an absent id or an absent list leaves it unchanged |
| TodoDelete.DeleteVariables | src/components/todo/todo-delete.tsx:70-71 | the delete is issued with the rendered todo's id, which matches exactly the entries carrying that id |
| TodoDelete.DeleteRemovesRendered | src/components/todo/todo-delete.tsx:47-50 | the rendered todo is no longer in the projected list; with unique ids the list shrinks by exactly one |
| TodoDelete.DeleteThenFail | src/components/todo/todo-delete.tsx:37-59 | after a failed delete, the list equals the snapshot exactly |
| TodoDelete.DeleteThenSucceed | src/components/todo/todo-delete.tsx:32-66 | the snapshot is the prior list; an entry remains iff it was there and has another id; the list is unchanged if the id is absent and stays absent if it was absent; success changes the list no further; navigation to / happens iff on a /todo/ page |

## Findings

The handlers model the code as written. Beside each one, a corrected definition is given with the intended property proved.

| source | as written | input that shows it | evidently intended | confidence | as-written member | corrected member |
|---|---|---|---|---|---|---|
| src/components/todo/todo-form.tsx:79-82 | `...variables` comes after `id: tempId`, so the form's `id` key, which holds `undefined` (line 55), overwrites the temporary id | submitting the new-todo form | the optimistic todo carries the `temp-` id generated at line 77. Success still replaces the entry, because `undefined === undefined` at line 105 | medium, not executed | TodoForm.NewFormLosesTempId | TodoCache.IntendedOptimisticTodo |
| src/components/todo/todo-form.tsx:146 | update success on an absent list stores `[updated]` as the whole list | editing from `/todo/$todoId`, whose loader fetches only `byId`, then opening `/`, whose `ensureQueryData` serves the one-row list | an absent list stays absent, so the list is fetched in full | low, not executed | TodoCache.UpdateSuccessMakesUpList | TodoCache.IntendedUpdateSuccessList |

## Left out

- Fields other than `id` holding an explicit `undefined`: the form always gives text, description, status and active a value, and the timestamps have no field, so only `id` has the three-state representation.
- Cancelling in-flight queries, awaiting, and interleaving concurrent mutations: each handler is one atomic step on one thread. So the model does not show how a restore can drop another mutation's projection.
- What `invalidateQueries` does internally: the model records only which `byId` keys were invalidated.
- Toasts (loading, success and error messages), `form.reset`, the dialog's open state, and all rendering.
- Handlers called with an undefined context, which happens when `onMutate` throws: the model's `onMutate` cannot fail.
- TodoCache.TempId: `Date.now()` and `Math.random()` are represented by an opaque token, so uniqueness is not modelled. `TodoForm.CreateThenSucceed` therefore requires that the temporary id is absent from the list.
- TodoSchema.TextIssues: counts characters (code points), while JavaScript string length counts UTF-16 code units. The zod default message texts are not modelled, only the kind of issue.
- AuthSchema.PasswordMessages: length is counted in code points, not UTF-16 code units.
- UUID and email format checking: uninterpreted predicates, passed as parameters.
- The schemas used only by the server (`todoInsert`, `apiTodoCreate`, `todoUpdate`, `apiTodoUpdate`, `apiUserUpdate`) and the session, account and verification tables. In `apiTodoCreateAndUpdate`, `active` is optional because its column has a default. `status` is required, because the `z.enum` refinement replaces the column's schema whole.
- The `timestamps` helper that `src/db/utils.ts` provides is not part of this model. The model assumes both timestamps default to the insertion time.
- The server router, the database, SuperJSON itself (its serializer and deserializer are parameters), the output transformer, the tRPC links and header forwarding, the QueryClient's stale time and hydration settings, and environment loading.
