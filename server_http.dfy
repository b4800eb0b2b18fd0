/**
 * The HTTP adapter: the shared-secret check and the `/tools/say_hello`
 * endpoint, which defaults its name and forwards to the greeting tool.
 */
module ServerHttp {
  import opened Wrappers
  import opened Json
  import PyText
  import Server

  /** An `HTTPException` raised by the adapter. */
  datatype HttpException = HttpException(statusCode: int, detail: string)

  const NotConfiguredDetail := "MCP_SHARED_SECRET not configured on server"
  const InvalidAuthDetail := "Invalid or missing X-MCP-Auth header"
  const ToolErrorPrefix := "Error calling tool: "

  /**
   * `verify_auth(auth_header)` against the configured secret (`""` when the
   * variable is unset): a missing secret is a server fault whatever the
   * header, then a missing, empty or different header is rejected.
   */
  function VerifyAuth(secret: string, authHeader: Option<string>): (r: Outcome<HttpException>)
    ensures r.Pass? <==> secret != "" && authHeader == Some(secret)
    ensures secret == "" ==> r == Fail(HttpException(500, NotConfiguredDetail))
    ensures secret != "" && authHeader != Some(secret) ==> r == Fail(HttpException(401, InvalidAuthDetail))
  {
    if secret == "" then Fail(HttpException(500, NotConfiguredDetail))
    else if authHeader.None? || authHeader.value == "" || authHeader.value != secret then
      Fail(HttpException(401, InvalidAuthDetail))
    else Pass
  }

  /** An exception the endpoint does not catch. */
  datatype RequestError =
    | AttributeError   // `.get` on a body that is not a dict

  /** What the endpoint answers. */
  datatype Response =
    | PlainText(content: string)
    | Raised(exception: HttpException)
    | Unhandled(error: RequestError)   // an exception FastAPI turns into a bare 500

  /**
   * The request body as the endpoint sees it: `{}` unless the content type
   * mentions `application/json` and the body parses (`parsed` is `None` when
   * `request.json()` fails).
   */
  function RequestBody(contentType: string, parsed: Option<Json>): (r: Json)
    ensures !PyText.Contains(contentType, "application/json") || parsed.None? ==> r == JObject(map[])
    ensures PyText.Contains(contentType, "application/json") && parsed.Some? ==> r == parsed.value
  {
    if PyText.Contains(contentType, "application/json") && parsed.Some? then parsed.value
    else JObject(map[])
  }

  /**
   * `body.get("name", "World")`: the name value, "World" when absent; a body
   * that parsed to something other than an object has no `get`.
   */
  function RequestName(contentType: string, parsed: Option<Json>): (r: Result<Json, RequestError>)
    ensures r.Failure? <==> !RequestBody(contentType, parsed).JObject?
    ensures var body := RequestBody(contentType, parsed);
            body.JObject? && "name" in body.fields ==> r == Success(body.fields["name"])
    ensures var body := RequestBody(contentType, parsed);
            body.JObject? && "name" !in body.fields ==> r == Success(JString(Server.DefaultName))
  {
    match RequestBody(contentType, parsed)
    case JObject(body) => Success(if "name" in body then body["name"] else JString(Server.DefaultName))
    case _ => Failure(AttributeError)
  }

  /** The `try` around the tool call: a tool error becomes a 500 carrying its message. */
  function ToolResponse(outcome: Result<string, string>): (r: Response)
    ensures outcome.Success? ==> r == PlainText(outcome.value)
    ensures outcome.Failure? ==>
              && r.Raised? && r.exception.statusCode == 500
              && |r.exception.detail| >= |ToolErrorPrefix|
              && r.exception.detail[..|ToolErrorPrefix|] == ToolErrorPrefix
              && r.exception.detail[|ToolErrorPrefix|..] == outcome.error
  {
    match outcome
    case Success(text) => PlainText(text)
    case Failure(msg) => Raised(HttpException(500, ToolErrorPrefix + msg))
  }

  /**
   * Python's `str()` of a value `json` decoded, which the greeting's f-string
   * applies: a string is itself, `null` is `None`, a boolean is `True` or
   * `False`, an integer its decimal digits (`str(n)`, which reads back to `n`).
   * `containerStr` stands for the text of a dict or a list.
   */
  function PyStr(v: Json, containerStr: Json -> string): (r: string)
    ensures v.JString? ==> r == v.str
    ensures v.JNull? ==> r == "None"
    ensures v.JBool? ==> r == (if v.flag then "True" else "False")
    ensures v.JNumber? ==> r == PyText.IntToString(v.num)
    ensures v.JNumber? && PyText.WithinStrLimit(v.num) ==> PyText.ParseInt(r) == Some(v.num)
    ensures !IsScalar(v) ==> r == containerStr(v)
  {
    match v
    case JString(text) => text
    case JNull => "None"
    case JBool(flag) => if flag then "True" else "False"
    case JNumber(n) =>
      if PyText.WithinStrLimit(n) then
        PyText.ParseIntOfIntToString(n);
        PyText.IntToString(n)
      else PyText.IntToString(n)
    case _ => containerStr(v)
  }

  /** `say_hello_endpoint`. */
  function SayHelloEndpoint(secret: string, authHeader: Option<string>, contentType: string,
                            parsed: Option<Json>, str: Json -> string): (r: Response)
    ensures VerifyAuth(secret, authHeader).Fail? ==> r == Raised(VerifyAuth(secret, authHeader).error)
    ensures VerifyAuth(secret, authHeader).Pass? && RequestName(contentType, parsed).Failure? ==>
              r == Unhandled(AttributeError)
    ensures VerifyAuth(secret, authHeader).Pass? && RequestName(contentType, parsed).Success? ==>
              var n := RequestName(contentType, parsed).value;
              r == PlainText(Server.SayHello(PyStr(n, str)))
  {
    match VerifyAuth(secret, authHeader)
    case Fail(e) => Raised(e)
    case Pass =>
      match RequestName(contentType, parsed)
      case Failure(e) => Unhandled(e)
      case Success(name) =>
        ToolResponse(Success(Server.SayHello(PyStr(name, str))))
  }

  /** An authenticated request without a usable JSON body gets the default greeting. */
  lemma DefaultsToWorld(secret: string, contentType: string, parsed: Option<Json>, str: Json -> string)
    requires secret != ""
    requires !PyText.Contains(contentType, "application/json") || parsed.None?
    ensures SayHelloEndpoint(secret, Some(secret), contentType, parsed, str) == PlainText(Server.SayHelloDefault())
  {
  }

  /** Without a configured secret no request reaches the tool. */
  lemma NoSecretNoGreeting(authHeader: Option<string>, contentType: string, parsed: Option<Json>, str: Json -> string)
    ensures SayHelloEndpoint("", authHeader, contentType, parsed, str) == Raised(HttpException(500, NotConfiguredDetail))
  {
  }

  /** `{"name": null}` is greeted as `None`, Python's text for the decoded `null`. */
  lemma NullNameGreetsNone(secret: string, str: Json -> string)
    requires secret != ""
    ensures SayHelloEndpoint(secret, Some(secret), "application/json", Some(JObject(map["name" := JNull])), str)
            == PlainText(Server.SayHello("None"))
  {
    var ct := "application/json";
    assert ct[..|ct|] == ct;
  }
}
