/** The response helpers of the API: the status-code to error-name table,
    the `{status, message, error, code, data}` envelope builders that
    `responseFormatter` attaches to every response, and the bare
    `{error, message, code}` bodies the routes write by hand. */
module Response {
  import opened Common

  /** What a handler sends: a status with a JSON body, or a status alone (`res.send()`). */
  datatype HttpResponse = JsonReply(status: int, body: Json) | EmptyReply(status: int)

  /** The value of a top-level field of a JSON object reply, if there is one. */
  function Field(r: HttpResponse, key: string): Option<Json>
  {
    if r.JsonReply? && r.body.JObj? && key in r.body.fields then Some(r.body.fields[key]) else None
  }

  const KnownStatuses: set<int> := {400, 401, 403, 404, 409, 422, 429, 500, 502, 503}

  /** The error name for a status code; the reverse of ErrorType on its named codes. */
  function ErrorCode(name: string): Option<int>
  {
    match name
    case "Bad Request" => Some(400)
    case "Unauthorized" => Some(401)
    case "Forbidden" => Some(403)
    case "Not Found" => Some(404)
    case "Conflict" => Some(409)
    case "Unprocessable Entity" => Some(422)
    case "Too Many Requests" => Some(429)
    case "Internal Server Error" => Some(500)
    case "Bad Gateway" => Some(502)
    case "Service Unavailable" => Some(503)
    case _ => None
  }

  /** `getErrorType`: the ten known codes have their own names, every other code is "Error". */
  function ErrorType(code: int): (name: string)
    ensures code in KnownStatuses <==> name != "Error"
    ensures code in KnownStatuses ==> ErrorCode(name) == Some(code)
    ensures code !in KnownStatuses ==> ErrorCode(name) == None
  {
    match code
    case 400 => "Bad Request"
    case 401 => "Unauthorized"
    case 403 => "Forbidden"
    case 404 => "Not Found"
    case 409 => "Conflict"
    case 422 => "Unprocessable Entity"
    case 429 => "Too Many Requests"
    case 500 => "Internal Server Error"
    case 502 => "Bad Gateway"
    case 503 => "Service Unavailable"
    case _ => "Error"
  }

  /** Every name ErrorCode knows is the name ErrorType gives its code. */
  lemma ErrorCodeInverse(name: string)
    ensures ErrorCode(name).Some? ==> ErrorCode(name).value in KnownStatuses && ErrorType(ErrorCode(name).value) == name
  {
  }

  const EmptyObject: Json := JObj(map[])

  function Envelope(ok: bool, message: string, error: string, code: int, data: Json): Json
  {
    JObj(map["status" := JBool(ok), "message" := JStr(message), "error" := JStr(error), "code" := JNum(code), "data" := data])
  }

  /** `res.success(data, message = 'Success', statusCode = 200)`; a falsy `data` is sent as `{}`. */
  function Success(data: Json, message: Option<string>, statusCode: Option<int>): (r: HttpResponse)
    ensures r.JsonReply? && r.body.JObj? && r.body.fields.Keys == {"status", "message", "data"}
    ensures r.status == if statusCode.Some? then statusCode.value else 200
    ensures r.body.fields["status"] == JBool(true)
    ensures r.body.fields["message"] == JStr(if message.Some? then message.value else "Success")
    ensures Truthy(data) ==> r.body.fields["data"] == data
    ensures !Truthy(data) ==> r.body.fields["data"] == EmptyObject
  {
    var status := if statusCode.Some? then statusCode.value else 200;
    var msg := if message.Some? then message.value else "Success";
    JsonReply(status, JObj(map["status" := JBool(true), "message" := JStr(msg), "data" := if Truthy(data) then data else EmptyObject]))
  }

  /** `res.error(message = 'Error occurred', statusCode = 500, errorDetails = null)`. */
  function Error(message: Option<string>, statusCode: Option<int>, details: Json): (r: HttpResponse)
    ensures r.JsonReply? && r.body.JObj? && r.body.fields.Keys == {"status", "message", "error", "code", "data"}
    ensures r.status == if statusCode.Some? then statusCode.value else 500
    ensures r.body.fields["code"] == JNum(r.status)
    ensures r.body.fields["error"] == JStr(ErrorType(r.status))
    ensures r.body.fields["status"] == JBool(false)
    ensures r.body.fields["message"] == JStr(if message.Some? then message.value else "Error occurred")
    ensures r.body.fields["data"].JObj?
    ensures "details" in r.body.fields["data"].fields <==> Truthy(details)
    ensures Truthy(details) ==> r.body.fields["data"].fields == map["details" := details]
  {
    var code := if statusCode.Some? then statusCode.value else 500;
    var msg := if message.Some? then message.value else "Error occurred";
    var data := if Truthy(details) then JObj(map["details" := details]) else EmptyObject;
    JsonReply(code, Envelope(false, msg, ErrorType(code), code, data))
  }

  /** `res.validationError(errors, message = 'Validation failed')`: always 400. */
  function ValidationError(errors: Json, message: Option<string>): (r: HttpResponse)
    ensures r.JsonReply? && r.status == 400
    ensures r.body.JObj? && r.body.fields.Keys == {"status", "message", "error", "code", "data"}
    ensures r.body.fields["error"] == JStr("Validation Error") && r.body.fields["code"] == JNum(400)
    ensures r.body.fields["data"] == JObj(map["details" := errors])
  {
    var msg := if message.Some? then message.value else "Validation failed";
    JsonReply(400, Envelope(false, msg, "Validation Error", 400, JObj(map["details" := errors])))
  }

  /** `res.unauthorized(message = 'Unauthorized access')`. */
  function Unauthorized(message: Option<string>): HttpResponse
  {
    JsonReply(401, Envelope(false, if message.Some? then message.value else "Unauthorized access", "Unauthorized", 401, EmptyObject))
  }

  /** `res.forbidden(message = 'Access forbidden')`. */
  function Forbidden(message: Option<string>): HttpResponse
  {
    JsonReply(403, Envelope(false, if message.Some? then message.value else "Access forbidden", "Forbidden", 403, EmptyObject))
  }

  /** `res.notFound(message = 'Resource not found')`. */
  function NotFound(message: Option<string>): HttpResponse
  {
    JsonReply(404, Envelope(false, if message.Some? then message.value else "Resource not found", "Not Found", 404, EmptyObject))
  }

  /** The three fixed-status helpers are `error()` at their status with the
      status's own error name and empty data; only their default messages differ. */
  lemma {:induction false} ShortcutsAreErrors(m: string)
    ensures Unauthorized(Some(m)) == Error(Some(m), Some(401), JNull)
    ensures Forbidden(Some(m)) == Error(Some(m), Some(403), JNull)
    ensures NotFound(Some(m)) == Error(Some(m), Some(404), JNull)
    ensures Unauthorized(None).status == 401 && Forbidden(None).status == 403 && NotFound(None).status == 404
  {
    assert ErrorType(401) == "Unauthorized";
    assert ErrorType(403) == "Forbidden";
    assert ErrorType(404) == "Not Found";
  }

  /** `validationError` is not `error()` at 400: it names the error
      "Validation Error" where getErrorType says "Bad Request". */
  lemma ValidationErrorName(errors: Json, m: string)
    requires Truthy(errors)
    ensures ValidationError(errors, Some(m)).status == Error(Some(m), Some(400), errors).status
    ensures Field(ValidationError(errors, Some(m)), "error") != Field(Error(Some(m), Some(400), errors), "error")
    ensures Field(ValidationError(errors, Some(m)), "data") == Field(Error(Some(m), Some(400), errors), "data")
  {
    assert Field(Error(Some(m), Some(400), errors), "error") == Some(JStr("Bad Request"));
  }

  /** The bare `{error, message, code}` body the routes and the
      authentication middleware send with `res.status(code).json(...)`. */
  function Plain(code: int, error: string, message: string): (r: HttpResponse)
    ensures r.JsonReply? && r.status == code
    ensures r.body.JObj? && r.body.fields.Keys == {"error", "message", "code"}
    ensures r.body.fields["code"] == JNum(code) && r.body.fields["message"] == JStr(message)
  {
    JsonReply(code, JObj(map["error" := JStr(error), "message" := JStr(message), "code" := JNum(code)]))
  }

  /** The bare validation body: `{error: 'Validation Error', message: 'Invalid input data', code: 400, details}`. */
  function PlainValidation(details: Json): (r: HttpResponse)
    ensures r.JsonReply? && r.status == 400
    ensures r.body.JObj? && "details" in r.body.fields && r.body.fields["details"] == details
  {
    JsonReply(400, JObj(map["error" := JStr("Validation Error"), "message" := JStr("Invalid input data"),
                            "code" := JNum(400), "details" := details]))
  }

  /** The message of a reply, when it has one. */
  function Message(r: HttpResponse): Option<string>
  {
    var m := Field(r, "message");
    if m.Some? && m.value.JStr? then Some(m.value.s) else None
  }
}
