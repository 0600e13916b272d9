/**
 * Requests the pages send, the answers the backend gives (as oracle inputs),
 * and the idioms the pages use to turn a caught error into a message.
 */
module Http {
  import opened Wrappers
  import opened Js

  datatype Verb = GET | POST | PUT | DELETE

  /** One backend call: verb, path, query parameters and JSON body. */
  datatype Request = Request(verb: Verb, path: string, params: map<string, string>, body: Json)

  function Get(path: string, params: map<string, string>): Request
  {
    Request(GET, path, params, JNull)
  }

  function Post(path: string, body: Json): Request
  {
    Request(POST, path, map[], body)
  }

  function Put(path: string, body: Json): Request
  {
    Request(PUT, path, map[], body)
  }

  function Delete(path: string): Request
  {
    Request(DELETE, path, map[], JNull)
  }

  /** The `response` part of an axios error: the HTTP status and the body. */
  datatype ErrorResponse = ErrorResponse(status: int, data: Json)

  /** A caught error: `response` is absent for network failures and non-HTTP errors. */
  datatype JsError = JsError(response: Option<ErrorResponse>, message: string)

  /** What awaiting a request produced: a resolved response, or the error it rejected with. */
  datatype Reply = Answered(status: int, data: Json) | Failed(failure: JsError)

  /** What awaiting a list request produced: the decoded records, or the error it rejected with. */
  datatype ListReply<T> = Listed(items: seq<T>) | ListFailed(failure: JsError)

  /** `err.response?.status === 403`. */
  predicate IsForbidden(e: JsError)
  {
    e.response.Some? && e.response.value.status == 403
  }

  /** `err.response?.data?.message`, absent when there is no response or no such field. */
  function ServerMessage(e: JsError): Option<Json>
  {
    if e.response.Some? then Prop(e.response.value.data, "message") else None
  }

  /** `err.response?.data?.message || fallback`, as the text the page shows. */
  function MessageOr(e: JsError, fallback: string): (text: string)
    ensures TruthyOpt(ServerMessage(e)) ==> text == Str(ServerMessage(e).value)
    ensures !TruthyOpt(ServerMessage(e)) ==> text == fallback
  {
    Str(OrElse(ServerMessage(e), JStr(fallback)))
  }

  /** `data || fallback`, as the text the page shows. */
  function DataOr(data: Json, fallback: string): (text: string)
    ensures Truthy(data) ==> text == Str(data)
    ensures !Truthy(data) ==> text == fallback
  {
    Str(OrElse(Some(data), JStr(fallback)))
  }

  /** `err.response?.data || fallback`. */
  function ErrorDataOr(e: JsError, fallback: string): (text: string)
    ensures e.response.Some? ==> text == DataOr(e.response.value.data, fallback)
    ensures e.response.None? ==> text == fallback
  {
    if e.response.Some? then DataOr(e.response.value.data, fallback) else fallback
  }

  /** The flag an availability check leaves: `setFlag(response.data)` when the GET resolves; a rejected GET is
    * only logged, so the flag keeps its value. */
  function CheckResult(flag: Json, reply: Reply): (r: Json)
    ensures reply.Answered? ==> r == reply.data
    ensures reply.Failed? ==> r == flag
  {
    match reply
    case Answered(_, data) => data
    case Failed(_) => flag
  }
}
