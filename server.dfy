/** The two handlers the server installs after the routers: the catch-all
    404 and the global error handler. */
module Server {
  import opened Common
  import opened Response

  // ---------------------------------------------------------------------
  // The catch-all 404

  const RoutePrefix: string := "Route "
  const RouteSuffix: string := " not found"

  /** `app.use('*', ...)`: 404 naming the requested URL. */
  function NotFoundRoute(url: string): HttpResponse
  {
    Plain(404, "Not Found", RoutePrefix + url + RouteSuffix)
  }

  /** The 404 names the URL: it can be read back from the message. */
  lemma NotFoundNamesUrl(url: string)
    ensures NotFoundRoute(url).status == 404
    ensures var m := Message(NotFoundRoute(url));
      m.Some? && |m.value| == |RoutePrefix| + |url| + |RouteSuffix|
      && m.value[|RoutePrefix|..|m.value| - |RouteSuffix|] == url
  {
    var m := RoutePrefix + url + RouteSuffix;
    assert m[|RoutePrefix|..|m| - |RouteSuffix|] == url;
  }

  // ---------------------------------------------------------------------
  // The global error handler

  /** What the handler reads of a thrown error; `None` for a property the
      error does not have. */
  datatype ThrownError = ThrownError(
    name: Option<string>,
    statusCode: Option<int>,
    message: Option<string>,
    stack: Option<string>)

  /** `err.statusCode || 500` and `err.message || 'Internal Server Error'`,
      then the three names that set their own status and message. */
  function StatusAndMessage(err: ThrownError): (int, string)
  {
    if err.name == Some("ValidationError") then (400, "Validation Error")
    else if err.name == Some("UnauthorizedError") then (401, "Unauthorized")
    else if err.name == Some("SequelizeValidationError") then (400, "Database Validation Error")
    else
      (if err.statusCode.Some? && err.statusCode.value != 0 then err.statusCode.value else 500,
       if Present(err.message) then err.message.value else "Internal Server Error")
  }

  /** The reply of the error handler; the stack is sent only in development
      (a missing stack is dropped by JSON). */
  function ErrorHandler(err: ThrownError, nodeEnv: Option<string>): (r: HttpResponse)
    ensures r.JsonReply? && r.body.JObj?
  {
    var (status, message) := StatusAndMessage(err);
    var fields := map[
      "error" := JStr(if Present(err.name) then err.name.value else "Error"),
      "message" := JStr(message),
      "code" := JNum(status)];
    JsonReply(status, JObj(if nodeEnv == Some("development") && err.stack.Some? then fields["stack" := JStr(err.stack.value)] else fields))
  }

  /** The status: 400 for both validation errors, 401 for `UnauthorizedError`,
      else the error's own non-zero status code, else 500; `code` repeats it. */
  lemma {:induction false} ErrorHandlerStatus(err: ThrownError, nodeEnv: Option<string>)
    ensures var r := ErrorHandler(err, nodeEnv);
      && r.status == (if err.name == Some("ValidationError") || err.name == Some("SequelizeValidationError") then 400
                      else if err.name == Some("UnauthorizedError") then 401
                      else if err.statusCode.Some? && err.statusCode.value != 0 then err.statusCode.value
                      else 500)
      && r.body.fields["code"] == JNum(r.status)
  {
  }

  /** The message: fixed for the three known names, else the error's own
      non-empty message, else the default; `error` is the name or "Error". */
  lemma {:induction false} ErrorHandlerMessage(err: ThrownError, nodeEnv: Option<string>)
    ensures var r := ErrorHandler(err, nodeEnv);
      && Message(r) == Some(if err.name == Some("ValidationError") then "Validation Error"
                            else if err.name == Some("UnauthorizedError") then "Unauthorized"
                            else if err.name == Some("SequelizeValidationError") then "Database Validation Error"
                            else if Present(err.message) then err.message.value
                            else "Internal Server Error")
      && r.body.fields["error"] == JStr(if Present(err.name) then err.name.value else "Error")
  {
  }

  /** The stack leaves the server only in development, and then as it is. */
  lemma {:induction false} StackOnlyInDevelopment(err: ThrownError, nodeEnv: Option<string>)
    ensures var r := ErrorHandler(err, nodeEnv);
      && ("stack" in r.body.fields <==> nodeEnv == Some("development") && err.stack.Some?)
      && ("stack" in r.body.fields ==> r.body.fields["stack"] == JStr(err.stack.value))
      && r.body.fields.Keys - {"stack"} == {"error", "message", "code"}
  {
  }
}
