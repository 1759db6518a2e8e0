/** The todo table, its status enum, and the API input schemas built on it
    (src/db/schema/todo.ts). */
module TodoSchema {
  import opened Wrappers

  /** The `status` enum: exactly three values. */
  datatype TodoStatus = NOT_STARTED | IN_PROGRESS | COMPLETED

  /** The string each enum member stands for. */
  function StatusName(s: TodoStatus): string
  {
    match s
    case NOT_STARTED => "NOT_STARTED"
    case IN_PROGRESS => "IN_PROGRESS"
    case COMPLETED => "COMPLETED"
  }

  /** `z.enum(TodoStatus)`: a string is accepted iff it names a member. */
  function ParseStatus(s: string): (r: Option<TodoStatus>)
    ensures forall st :: r == Some(st) <==> StatusName(st) == s
  {
    if s == "NOT_STARTED" then Some(NOT_STARTED)
    else if s == "IN_PROGRESS" then Some(IN_PROGRESS)
    else if s == "COMPLETED" then Some(COMPLETED)
    else None
  }

  /** A JavaScript object key: absent, present with the value `undefined`,
      or present with a value. An object spread copies the last two and
      skips the first. */
  datatype Key<T> = Absent | Undefined | Present(value: T) {

    /** What reading the key yields: `None` is `undefined`. */
    function Read(): (r: Option<T>)
      ensures r.Some? <==> Present?
      ensures Present? ==> r.value == value
    {
      if Present? then Some(value) else None
    }
  }

  /** A todo as the client holds it. Timestamps are naturals; `description`
      is nullable (`None` is SQL NULL), `text` is required. A stored row
      always has an id; `id == None` (an `undefined` id) arises only in an
      optimistic todo. */
  datatype Todo = Todo(
    id: Option<string>,
    text: string,
    description: Option<string>,
    active: bool,
    status: TodoStatus,
    createdAt: nat,
    updatedAt: nat)

  /** The `apiTodoCreateAndUpdate` input. `text` and `status` are required
      (`status` is refined with `z.enum`, which replaces the defaulted
      column's optional schema); each other `None` is a key that is absent. */
  datatype TodoInput = TodoInput(
    id: Key<string>,
    text: string,
    description: Option<string>,
    active: Option<bool>,
    status: TodoStatus,
    createdAt: Option<nat>,
    updatedAt: Option<nat>)

  /** The `apiTodoId` input: the id field and nothing else. */
  datatype TodoIdInput = TodoIdInput(id: Key<string>)

  const TEXT_MIN_LENGTH: nat := 3
  const TEXT_MAX_LENGTH: nat := 250

  /** The validation issues the schema can report. */
  datatype TodoIssue = TextTooShort(minimum: nat) | TextTooLong(maximum: nat) | InvalidUuid

  /** A row as the database inserts it: the random id default and the
      column defaults `active = true` and `status = NOT_STARTED` fill in a
      missing value, `description` defaults to NULL, and both timestamps are
      set to the insertion time. */
  function InsertRow(generatedId: string, id: Option<string>, text: string, description: Option<string>,
                     active: Option<bool>, status: Option<TodoStatus>, now: nat): (r: Todo)
    ensures r.id == Some(id.GetOr(generatedId)) && r.text == text
    ensures active == None ==> r.active
    ensures status == None ==> r.status == NOT_STARTED
    ensures description == None ==> r.description == None
    ensures r.createdAt == now && r.updatedAt == now
  {
    Todo(Some(id.GetOr(generatedId)), text, description, active.GetOr(true), status.GetOr(NOT_STARTED), now, now)
  }

  /** The issues of the `text` field: `z.string().min(3).max(250)`. */
  function TextIssues(text: string): (r: seq<TodoIssue>)
    ensures r == [] <==> TEXT_MIN_LENGTH <= |text| <= TEXT_MAX_LENGTH
    ensures |r| <= 1
  {
    (if |text| < TEXT_MIN_LENGTH then [TextTooShort(TEXT_MIN_LENGTH)] else [])
    + (if |text| > TEXT_MAX_LENGTH then [TextTooLong(TEXT_MAX_LENGTH)] else [])
  }

  /** The issues of an optional UUID field: `z.uuid().optional()`. The UUID
      format check is the uninterpreted predicate `isUuid`. */
  function IdIssues(id: Key<string>, isUuid: string -> bool): (r: seq<TodoIssue>)
    ensures r == [] <==> (id.Present? ==> isUuid(id.value))
    ensures r != [] ==> r == [InvalidUuid]
  {
    if id.Present? && !isUuid(id.value) then [InvalidUuid] else []
  }

  /** `apiTodoCreateAndUpdate.safeParse`: the issues reported, in key order
      (text first, id after it). Description, active, status and the
      timestamps are optional, and `status` is a member of the enum by its
      type, so they put no further constraint on the input. */
  function TodoInputIssues(v: TodoInput, isUuid: string -> bool): (r: seq<TodoIssue>)
    ensures r == [] <==>
      TEXT_MIN_LENGTH <= |v.text| <= TEXT_MAX_LENGTH && (v.id.Present? ==> isUuid(v.id.value))
    ensures InvalidUuid in r <==> v.id.Present? && !isUuid(v.id.value)
  {
    TextIssues(v.text) + IdIssues(v.id, isUuid)
  }

  /** `apiTodoCreateAndUpdate.pick({ id: true })`. */
  function PickId(v: TodoInput): (r: TodoIdInput)
    ensures r.id == v.id
  {
    TodoIdInput(v.id)
  }

  /** `apiTodoId.safeParse`. */
  function TodoIdIssues(i: TodoIdInput, isUuid: string -> bool): (r: seq<TodoIssue>)
    ensures r == [] <==> (i.id.Present? ==> isUuid(i.id.value))
  {
    IdIssues(i.id, isUuid)
  }

  /** Picking the id keeps its rule: an input the create/update schema
      accepts yields an id input `apiTodoId` accepts, and an id input is
      rejected exactly when the id rule of the full schema fails. */
  lemma PickIdKeepsValidity(v: TodoInput, isUuid: string -> bool)
    ensures TodoInputIssues(v, isUuid) == [] ==> TodoIdIssues(PickId(v), isUuid) == []
    ensures TodoIdIssues(PickId(v), isUuid) != [] <==> InvalidUuid in TodoInputIssues(v, isUuid)
  {
  }

  /** A string is a valid status iff it is one of the three names. */
  lemma StatusHasThreeValues(s: string)
    ensures ParseStatus(s).Some? <==> s == "NOT_STARTED" || s == "IN_PROGRESS" || s == "COMPLETED"
    ensures forall st :: ParseStatus(StatusName(st)) == Some(st)
  {
  }
}
