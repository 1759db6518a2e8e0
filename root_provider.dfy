/** The modelled parts of the client set-up (src/trpc/root-provider.tsx):
    the query retry predicate, the RPC endpoint URL and the input
    transformer. */
module RootProvider {
  import opened Wrappers
  import opened TrpcErrors

  const MAX_QUERY_RETRIES: int := 0

  /** Codes for which a failed query is never retried. */
  predicate NonRetryable(code: Option<ErrorCode>)
  {
    code == Some(BAD_REQUEST) || code == Some(FORBIDDEN) || code == Some(UNAUTHORIZED)
  }

  /** `retry(failureCount, err)`; `code` is `err.data.code`, absent when the
      error carries none. */
  function Retry(failureCount: int, code: Option<ErrorCode>): (r: bool)
    ensures NonRetryable(code) ==> !r
    ensures failureCount >= 0 ==> !r
    ensures !NonRetryable(code) && failureCount < 0 ==> r
  {
    if NonRetryable(code) then false
    else failureCount < MAX_QUERY_RETRIES
  }

  /** On the code string itself, as the source compares it: a retry iff
      the string is none of the three names and the count is negative. */
  lemma RetryByCodeName(failureCount: int, name: string)
    ensures Retry(failureCount, Some(ParseCode(name))) <==>
      name != "BAD_REQUEST" && name != "FORBIDDEN" && name != "UNAUTHORIZED" && failureCount < 0
  {
  }

  /** No error built by `createErrors` ever causes a retry. */
  lemma PredefinedErrorsNeverRetried(i18n: Option<I18n>, kind: ErrorKind, failureCount: nat)
    ensures !Retry(failureCount, Some(CreateError(i18n, kind).code))
  {
  }

  /** What `getUrl` reads from its environment. */
  datatype UrlEnv = UrlEnv(
    inBrowser: bool,              // typeof window !== "undefined"
    publicUrl: Option<string>,    // clientEnv.VITE_PUBLIC_URL
    port: Option<string>)         // process.env.PORT

  const TRPC_PATH := "/api/trpc"
  const DEFAULT_PORT := "3000"

  /** `getUrl`: the base, then the RPC path. In a browser the base is empty
      (a same-origin path); otherwise it is the public URL when set and
      non-empty, else localhost on PORT, which defaults to 3000. */
  function GetUrl(env: UrlEnv): (url: string)
    ensures |url| >= |TRPC_PATH| && url[|url| - |TRPC_PATH|..] == TRPC_PATH
    ensures env.inBrowser ==> url == TRPC_PATH
    ensures !env.inBrowser && Truthy(env.publicUrl) ==> url == env.publicUrl.value + TRPC_PATH
    ensures !env.inBrowser && !Truthy(env.publicUrl) ==>
      url == "http://localhost:" + env.port.GetOr(DEFAULT_PORT) + TRPC_PATH
  {
    var base :=
      if env.inBrowser then ""
      else if Truthy(env.publicUrl) then env.publicUrl.value
      else "http://localhost:" + env.port.GetOr(DEFAULT_PORT);
    base + TRPC_PATH
  }

  /** A transported input: form data and binary payloads cannot be encoded as
      JSON; everything else is a plain value. */
  datatype Payload =
    | FormData(fields: seq<(string, string)>)
    | Octets(bytes: seq<bv8>)
    | Plain(json: string)

  /** `isNonJsonSerializable`. */
  predicate IsNonJsonSerializable(v: Payload)
  {
    v.FormData? || v.Octets?
  }

  /** SuperJSON's serializer and deserializer, which are not part of this model. */
  datatype SuperJson = SuperJson(serialize: Payload -> Payload, deserialize: Payload -> Payload)

  /** `transformer.input.serialize`. */
  function SerializeInput(sj: SuperJson, v: Payload): (r: Payload)
    ensures IsNonJsonSerializable(v) ==> r == v
    ensures !IsNonJsonSerializable(v) ==> r == sj.serialize(v)
  {
    if IsNonJsonSerializable(v) then v else sj.serialize(v)
  }

  /** `transformer.input.deserialize`. */
  function DeserializeInput(sj: SuperJson, v: Payload): (r: Payload)
    ensures IsNonJsonSerializable(v) ==> r == v
    ensures !IsNonJsonSerializable(v) ==> r == sj.deserialize(v)
  {
    if IsNonJsonSerializable(v) then v else sj.deserialize(v)
  }

  /** The input transformer round-trips: form data and binaries unconditionally,
      plain values whenever SuperJSON round-trips them into a plain value. */
  lemma InputRoundTrip(sj: SuperJson, v: Payload)
    requires !IsNonJsonSerializable(v) ==>
      !IsNonJsonSerializable(sj.serialize(v)) && sj.deserialize(sj.serialize(v)) == v
    ensures DeserializeInput(sj, SerializeInput(sj, v)) == v
  {
  }
}
