/** Translated tRPC errors (src/trpc/errors.ts). */
module TrpcErrors {
  import opened Wrappers

  /** The name of a tRPC error code other than the five this application
      produces or inspects. */
  type OtherCodeName = s: string | s !in {"NOT_FOUND", "BAD_REQUEST", "INTERNAL_SERVER_ERROR", "UNAUTHORIZED", "FORBIDDEN"}
    witness "TIMEOUT"

  /** The tRPC error codes this application produces or inspects; any other
      code is `OtherCode`. */
  datatype ErrorCode =
    | NOT_FOUND
    | BAD_REQUEST
    | INTERNAL_SERVER_ERROR
    | UNAUTHORIZED
    | FORBIDDEN
    | OtherCode(name: OtherCodeName)

  /** The string a code stands for. */
  function CodeName(c: ErrorCode): string
  {
    match c
    case NOT_FOUND => "NOT_FOUND"
    case BAD_REQUEST => "BAD_REQUEST"
    case INTERNAL_SERVER_ERROR => "INTERNAL_SERVER_ERROR"
    case UNAUTHORIZED => "UNAUTHORIZED"
    case FORBIDDEN => "FORBIDDEN"
    case OtherCode(name) => name
  }

  /** The code a string names; each string names exactly one code. */
  function ParseCode(name: string): (c: ErrorCode)
    ensures CodeName(c) == name
    ensures forall d :: CodeName(d) == name ==> d == c
  {
    if name == "NOT_FOUND" then NOT_FOUND
    else if name == "BAD_REQUEST" then BAD_REQUEST
    else if name == "INTERNAL_SERVER_ERROR" then INTERNAL_SERVER_ERROR
    else if name == "UNAUTHORIZED" then UNAUTHORIZED
    else if name == "FORBIDDEN" then FORBIDDEN
    else OtherCode(name)
  }

  /** The codes `createTranslatedError` takes. */
  predicate Translatable(code: ErrorCode)
  {
    code.NOT_FOUND? || code.BAD_REQUEST? || code.INTERNAL_SERVER_ERROR? || code.UNAUTHORIZED?
  }

  /** A message catalogue: `_` looks a message id up and may yield nothing. */
  datatype I18n = I18n(translate: string -> Option<string>)

  datatype TrpcError = TrpcError(code: ErrorCode, message: string)

  /** `createTranslatedError`: the code is kept, the message is the
      translation when a catalogue is present and yields one, and the
      fallback text otherwise. */
  function CreateTranslatedError(i18n: Option<I18n>, code: ErrorCode, fallbackMessage: string): (e: TrpcError)
    requires Translatable(code)
    ensures e.code == code
    ensures i18n.None? ==> e.message == fallbackMessage
    ensures i18n.Some? && i18n.value.translate(fallbackMessage).None? ==> e.message == fallbackMessage
    ensures forall m :: i18n.Some? && i18n.value.translate(fallbackMessage) == Some(m) ==> e.message == m
  {
    var translated := if i18n.Some? then i18n.value.translate(fallbackMessage) else None;
    TrpcError(code, translated.GetOr(fallbackMessage))
  }

  /** The five predefined errors of `createErrors`. */
  datatype ErrorKind = TodoNotFound | InvalidInput | TodoDeleteFailed | TodoUpdateFailed | TodoCreateFailed

  /** `createErrors(i18n)[kind]()`: the code and fallback text of each kind. */
  function CreateError(i18n: Option<I18n>, kind: ErrorKind): (e: TrpcError)
    ensures kind == TodoNotFound ==> e.code == NOT_FOUND
    ensures kind == InvalidInput ==> e.code == BAD_REQUEST
    ensures kind in {TodoDeleteFailed, TodoUpdateFailed, TodoCreateFailed} <==> e.code == INTERNAL_SERVER_ERROR
    ensures i18n.None? ==> e.message == FallbackText(kind)
  {
    match kind
    case TodoNotFound => CreateTranslatedError(i18n, NOT_FOUND, "Todo not found")
    case InvalidInput => CreateTranslatedError(i18n, BAD_REQUEST, "Invalid input")
    case TodoDeleteFailed => CreateTranslatedError(i18n, INTERNAL_SERVER_ERROR, "Failed to delete todo")
    case TodoUpdateFailed => CreateTranslatedError(i18n, INTERNAL_SERVER_ERROR, "Failed to update todo")
    case TodoCreateFailed => CreateTranslatedError(i18n, INTERNAL_SERVER_ERROR, "Failed to create todo")
  }

  /** The untranslated text of each predefined error. */
  function FallbackText(kind: ErrorKind): string
  {
    match kind
    case TodoNotFound => "Todo not found"
    case InvalidInput => "Invalid input"
    case TodoDeleteFailed => "Failed to delete todo"
    case TodoUpdateFailed => "Failed to update todo"
    case TodoCreateFailed => "Failed to create todo"
  }

  /** Without a catalogue the five errors are told apart by their messages. */
  lemma FallbackTextsDistinct(k1: ErrorKind, k2: ErrorKind)
    ensures CreateError(None, k1).message == CreateError(None, k2).message ==> k1 == k2
  {
  }
}
