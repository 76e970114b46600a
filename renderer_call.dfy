/**
 * The backend's call to the rendering service, as both export paths make it:
 * a reply below status 500 comes back as a reply, anything else as an
 * HTTP-client error.
 */
module RendererCall {
  import opened Wrappers
  import opened Strings
  import opened CardModel

  /**
   * A body read as JSON: not JSON at all, or a value whose `message` and
   * `error` fields are "" when missing or falsy.
   */
  datatype Body = NotJson | Json(message: string, error: string)

  /** A reply with status below 500; `contentType` is "" when the header is missing. */
  datatype Reply = Reply(status: int, contentType: string, data: seq<bv8>, body: Body)

  /** The reply attached to an HTTP-client error, with its body when it has one. */
  datatype ErrorReply = ErrorReply(status: int, data: Option<Body>)

  /** An HTTP-client error: its `code` ("" when none), its message, and the reply it carries. */
  datatype ClientError = ClientError(code: string, message: string, response: Option<ErrorReply>)

  datatype Outcome = Answered(reply: Reply) | Raised(error: ClientError)

  predicate IsSuccess(status: int)
  {
    200 <= status < 300
  }

  /** `errorData?.message || errorData?.error || fallback`. */
  function ErrorMessage(body: Option<Body>, fallback: string): (m: string)
    ensures body.None? || body == Some(NotJson) ==> m == fallback
    ensures body.Some? && body.value.Json? && body.value.message != "" ==> m == body.value.message
    ensures body.Some? && body.value.Json? && body.value.message == "" ==> m == OrString(body.value.error, fallback)
  {
    match body
    case Some(Json(message, error)) => if message != "" then message else if error != "" then error else fallback
    case _ => fallback
  }

  /** `getContentType`, the same table in both export paths. */
  function ContentType(format: string): (t: string)
    ensures format == "png" ==> t == "image/png"
    ensures format == "jpeg" ==> t == "image/jpeg"
    ensures format == "pdf" ==> t == "application/pdf"
    ensures format !in {"png", "jpeg", "pdf"} ==> t == "application/octet-stream"
  {
    if format == "png" then "image/png"
    else if format == "jpeg" then "image/jpeg"
    else if format == "pdf" then "application/pdf"
    else "application/octet-stream"
  }

  /** The classes of client error, checked in this order. */
  datatype ErrorKind = TimedOut | CannotConnect | NetworkError | ServiceError | Generic

  /**
   * The order both export paths test a client error in: the timeout code,
   * then the connection codes, then any other code, then an attached reply.
   */
  function Classify(e: ClientError): (k: ErrorKind)
    ensures k == TimedOut <==> e.code == "ECONNABORTED"
    ensures k == CannotConnect <==> e.code == "ECONNREFUSED" || e.code == "ENOTFOUND"
    ensures k == NetworkError <==> e.code !in {"", "ECONNABORTED", "ECONNREFUSED", "ENOTFOUND"}
    ensures k == ServiceError <==> e.code == "" && e.response.Some?
    ensures k == Generic <==> e.code == "" && e.response.None?
  {
    if e.code == "ECONNABORTED" then TimedOut
    else if e.code == "ECONNREFUSED" || e.code == "ENOTFOUND" then CannotConnect
    else if e.code != "" then NetworkError
    else if e.response.Some? then ServiceError
    else Generic
  }

  const TimeoutMessage: string := "Rendering service timed out after 60 seconds"

  function CannotConnectMessage(serviceUrl: string): (m: string)
    ensures StartsWith(m, "Cannot connect to rendering service at ")
  {
    "Cannot connect to rendering service at " + serviceUrl + ". Please ensure the rendering service is running."
  }

  function NetworkMessage(e: ClientError): (m: string)
    ensures StartsWith(m, "Network error: ")
  {
    "Network error: " + e.code + " - " + e.message
  }

  /** `Rendering service error: {message} (Status: {status})`. */
  function ServiceErrorMessage(message: string, status: int): (m: string)
    ensures StartsWith(m, "Rendering service error: ")
    ensures |m| > 25 + |message| && m[25..25 + |message|] == message
  {
    "Rendering service error: " + message + " (Status: " + IntToString(status) + ")"
  }

  function GenericMessage(e: ClientError): (m: string)
    ensures StartsWith(m, "Rendering failed: ")
    ensures e.message != "" ==> m[|"Rendering failed: "|..] == e.message
  {
    "Rendering failed: " + OrString(e.message, "Unknown error")
  }

  /** The characters that tell the five messages apart. */
  lemma {:induction false} MessageMarks(e1: ClientError, e2: ClientError, url: string, message: string, status: int)
    ensures TimeoutMessage[0] == 'R' && TimeoutMessage[10] == 's' && TimeoutMessage[18] == 't'
    ensures CannotConnectMessage(url)[0] == 'C'
    ensures NetworkMessage(e1)[0] == 'N'
    ensures |ServiceErrorMessage(message, status)| > 18
    ensures ServiceErrorMessage(message, status)[0] == 'R' && ServiceErrorMessage(message, status)[10] == 's'
    ensures ServiceErrorMessage(message, status)[18] == 'e'
    ensures |GenericMessage(e2)| > 18 && GenericMessage(e2)[0] == 'R' && GenericMessage(e2)[10] == 'f'
  {
    var p := "Rendering service error: ";
    assert ServiceErrorMessage(message, status)[..|p|] == p;
    assert p[0] == 'R' && p[10] == 's' && p[18] == 'e';
    var g := "Rendering failed: ";
    assert GenericMessage(e2)[..|g|] == g;
    assert g[0] == 'R' && g[10] == 'f';
  }

  /**
   * The five kinds of renderer failure are told apart by their messages: no
   * two kinds ever produce the same text, whatever the error.
   */
  lemma {:induction false} MessagesDistinct(e1: ClientError, e2: ClientError, url: string, message: string, status: int)
    ensures var ms := [TimeoutMessage, CannotConnectMessage(url), NetworkMessage(e1),
                       ServiceErrorMessage(message, status), GenericMessage(e2)];
      forall i, j :: 0 <= i < j < 5 ==> ms[i] != ms[j]
  {
    MessageMarks(e1, e2, url, message, status);
  }
}
