/** Filling the protocol-agnostic parameters of an HTTP request
    (src/middleware/protocol/params/http/index.js): the method, the
    parameters from the query string and the application headers, and the
    payload. Reading headers, parsing the query string and the bodies, and
    `transtype` are outside the model: their results are inputs. */
module HttpParams {
  import opened Values
  import opened Outcomes

  // ---------------------------------------------------------------- method

  /** `methodMap` */
  function MethodMap(protocolMethod: string): (r: Option<string>)
    ensures protocolMethod == "GET" <==> r == Some("find")
    ensures protocolMethod == "POST" <==> r == Some("create")
    ensures protocolMethod == "PUT" <==> r == Some("replace")
    ensures protocolMethod == "PATCH" <==> r == Some("update")
    ensures protocolMethod == "DELETE" <==> r == Some("delete")
    ensures r.None? <==> protocolMethod !in {"GET", "POST", "PUT", "PATCH", "DELETE"}
  {
    match protocolMethod
    case "GET" => Some("find")
    case "POST" => Some("create")
    case "PUT" => Some("replace")
    case "PATCH" => Some("update")
    case "DELETE" => Some("delete")
    case _ => None
  }

  /** `verb` is the key `method`, a word Dafny reserves. */
  datatype Methods = Methods(verb: string, protocolMethod: string)

  function UnsupportedMethod(protocolMethod: string): Error {
    Engine("UNSUPPORTED_METHOD", "Unsupported protocol method: " + protocolMethod)
  }

  /** `getMethod`: the protocol-agnostic method, keeping the HTTP one. */
  function GetMethod(protocolMethod: string): (r: Result<Methods>)
    ensures r.Ok? <==> MethodMap(protocolMethod).Some?
    ensures r.Ok? ==> r.value == Methods(MethodMap(protocolMethod).value, protocolMethod)
    ensures r.Err? ==> r.error == UnsupportedMethod(protocolMethod)
  {
    match MethodMap(protocolMethod)
    case None => Err(UnsupportedMethod(protocolMethod))
    case Some(m) => Ok(Methods(m, protocolMethod))
  }

  // ------------------------------------------------------------ parameters

  /** `getParams`: application headers and query parameters merged, the
      query parameters winning, then each value guessed by `transtype`. */
  function GetParams(queryParams: Record, appHeaders: Record, transtype: Value -> Value): (r: Record)
    ensures r.Keys == appHeaders.Keys + queryParams.Keys
    ensures forall k :: k in queryParams ==> r[k] == transtype(queryParams[k])
    ensures forall k :: k in appHeaders && k !in queryParams ==> r[k] == transtype(appHeaders[k])
  {
    var raw := Assign(appHeaders, queryParams);
    map k | k in raw :: transtype(raw[k])
  }

  // --------------------------------------------------------------- payload

  /** The headers of the request that decide the payload, `None` when a
      header is absent. */
  datatype Request = Request(contentLength: Option<string>, transferEncoding: Option<string>, contentType: Option<string>)

  /** JavaScript's `Number(x) > 0`; `toNumber` gives `None` for `NaN`, and
      `Number(undefined)` is `NaN`. */
  predicate HasPayload(req: Request, toNumber: string -> Option<real>) {
    (req.contentLength.Some? && toNumber(req.contentLength.value).Some? && toNumber(req.contentLength.value).value > 0.0)
    || req.transferEncoding.Some?
  }

  /** What the five body parsers give for this request; `raw` is the
      content of the `Buffer` when it gives one. */
  datatype Parsed = Parsed(json: Value, urlencoded: Value, text: Value, raw: Option<string>, graphql: Value)

  const HandlerCount := 5

  /** What the string handler makes of the string parser's result. */
  type TextHandlerFn = Value -> Value

  /** The string handler as written: it discards a string body and passes
      anything else through. */
  function TextHandlerAsWritten(text: Value): (r: Value)
    ensures text.Str? ==> r == Null
    ensures !text.Str? ==> r == text
  {
    if text.Str? then Null else text
  }

  /** The string handler as intended: a string body is the payload. */
  function TextHandler(text: Value): (r: Value)
    ensures Truthy(r) <==> text.Str? && text.s != ""
    ensures Truthy(r) ==> r == text
  {
    if text.Str? then text else Null
  }

  /** Result of `payloadHandlers[i]`, the string handler being `textHandler`. */
  function Handler(i: nat, parsed: Parsed, textHandler: TextHandlerFn): Value
    requires i < HandlerCount
  {
    if i == 0 then parsed.json
    else if i == 1 then parsed.urlencoded
    else if i == 2 then textHandler(parsed.text)
    else if i == 3 then (if parsed.raw.Some? then Str(parsed.raw.value) else Null)
    else if Truthy(parsed.graphql) then Obj(map["query" := parsed.graphql])
    else Null
  }

  const NoContentType := Engine("HTTP_NO_CONTENT_TYPE", "Must specify Content-Type when sending an HTTP request body")

  function WrongContentType(contentType: string): Error {
    Engine("HTTP_WRONG_CONTENT_TYPE", "Unsupported Content-Type: " + contentType)
  }

  /** The error when no handler gives a body. */
  function NoHandlerError(req: Request): (e: Error)
    ensures req.contentType.None? || req.contentType == Some("") <==> e == NoContentType
    ensures req.contentType.Some? && req.contentType.value != "" ==> e == WrongContentType(req.contentType.value)
  {
    if req.contentType.None? || req.contentType.value == "" then NoContentType
    else WrongContentType(req.contentType.value)
  }

  /** The first handler, from `from` on, whose result is truthy. */
  function FirstBody(parsed: Parsed, textHandler: TextHandlerFn, from: nat): (r: Option<nat>)
    requires from <= HandlerCount
    ensures r.Some? ==> from <= r.value < HandlerCount && Truthy(Handler(r.value, parsed, textHandler))
    ensures r.Some? ==> forall j :: from <= j < r.value ==> !Truthy(Handler(j, parsed, textHandler))
    ensures r.None? ==> forall j :: from <= j < HandlerCount ==> !Truthy(Handler(j, parsed, textHandler))
    decreases HandlerCount - from
  {
    if from == HandlerCount then None
    else if Truthy(Handler(from, parsed, textHandler)) then Some(from)
    else FirstBody(parsed, textHandler, from + 1)
  }

  /** What `getPayload` computes: `undefined` without a payload, else the
      first truthy handler result, else the content-type error. With
      `TextHandlerAsWritten` this is the code as written. */
  function Payload(req: Request, toNumber: string -> Option<real>, parsed: Parsed, textHandler: TextHandlerFn): Result<Value> {
    if !HasPayload(req, toNumber) then Ok(Undefined)
    else match FirstBody(parsed, textHandler, 0)
      case Some(i) => Ok(Handler(i, parsed, textHandler))
      case None => Err(NoHandlerError(req))
  }

  /** `getPayload`: tries the handlers in turn. */
  method GetPayload(req: Request, toNumber: string -> Option<real>, parsed: Parsed, textHandler: TextHandlerFn)
    returns (r: Result<Value>)
    ensures r == Payload(req, toNumber, parsed, textHandler)
  {
    if !HasPayload(req, toNumber) {
      return Ok(Undefined);
    }
    var i := 0;
    while i < HandlerCount
      invariant 0 <= i <= HandlerCount
      invariant FirstBody(parsed, textHandler, 0) == FirstBody(parsed, textHandler, i)
    {
      var body := Handler(i, parsed, textHandler);
      if Truthy(body) {
        return Ok(body);
      }
      i := i + 1;
    }
    return Err(NoHandlerError(req));
  }

  /** A `text/plain` body `hello` that only the string parser reads: as
      written every handler gives a falsy result, so the request fails with
      `HTTP_WRONG_CONTENT_TYPE`; with the intended handler it is the
      payload. */
  lemma TextBodyLostAsWritten(toNumber: string -> Option<real>)
    requires toNumber("5") == Some(5.0)
    ensures var parsed := Parsed(Undefined, Undefined, Str("hello"), None, Undefined);
      var req := Request(Some("5"), None, Some("text/plain"));
      && HasPayload(req, toNumber)
      && Payload(req, toNumber, parsed, TextHandlerAsWritten) == Err(WrongContentType("text/plain"))
      && Payload(req, toNumber, parsed, TextHandler) == Ok(Str("hello"))
  {
    var parsed := Parsed(Undefined, Undefined, Str("hello"), None, Undefined);
    assert FirstBody(parsed, TextHandlerAsWritten, 0) == None by {
      assert forall j :: 0 <= j < HandlerCount ==> !Truthy(Handler(j, parsed, TextHandlerAsWritten));
    }
    assert FirstBody(parsed, TextHandler, 0) == Some(2) by {
      assert !Truthy(Handler(0, parsed, TextHandler)) && !Truthy(Handler(1, parsed, TextHandler));
      assert Truthy(Handler(2, parsed, TextHandler));
      assert FirstBody(parsed, TextHandler, 0) == FirstBody(parsed, TextHandler, 2);
    }
  }

  /** Without a payload nothing is parsed; with one, the result is truthy
      or an error naming the content type problem. */
  lemma PayloadCases(req: Request, toNumber: string -> Option<real>, parsed: Parsed, textHandler: TextHandlerFn)
    ensures !HasPayload(req, toNumber) ==> Payload(req, toNumber, parsed, textHandler) == Ok(Undefined)
    ensures HasPayload(req, toNumber) && Payload(req, toNumber, parsed, textHandler).Ok? ==>
      Truthy(Payload(req, toNumber, parsed, textHandler).value)
    ensures HasPayload(req, toNumber) && Payload(req, toNumber, parsed, textHandler).Err? ==>
      (forall j :: 0 <= j < HandlerCount ==> !Truthy(Handler(j, parsed, textHandler))) &&
      Payload(req, toNumber, parsed, textHandler).error.reason in {"HTTP_NO_CONTENT_TYPE", "HTTP_WRONG_CONTENT_TYPE"}
  {
  }

  /** A JSON body is taken before any other handler runs. */
  lemma JsonFirst(req: Request, toNumber: string -> Option<real>, parsed: Parsed, textHandler: TextHandlerFn)
    requires HasPayload(req, toNumber) && Truthy(parsed.json)
    ensures Payload(req, toNumber, parsed, textHandler) == Ok(parsed.json)
  {
  }

  /** With the intended handler, a string body is the payload when the JSON
      and urlencoded parsers give nothing. */
  lemma TextBodyKept(req: Request, toNumber: string -> Option<real>, parsed: Parsed)
    requires HasPayload(req, toNumber) && !Truthy(parsed.json) && !Truthy(parsed.urlencoded)
    requires parsed.text.Str? && parsed.text.s != ""
    ensures Payload(req, toNumber, parsed, TextHandler) == Ok(parsed.text)
  {
    assert FirstBody(parsed, TextHandler, 0) == FirstBody(parsed, TextHandler, 2);
  }

  /** As written, a string body is never the payload: only the binary or
      GraphQL handler, or an error, can follow a falsy JSON and urlencoded
      result. */
  lemma StringBodyNeverPayloadAsWritten(req: Request, toNumber: string -> Option<real>, parsed: Parsed)
    requires HasPayload(req, toNumber) && !Truthy(parsed.json) && !Truthy(parsed.urlencoded)
    requires parsed.text.Str?
    ensures Payload(req, toNumber, parsed, TextHandlerAsWritten) ==
      match FirstBody(parsed, TextHandlerAsWritten, 3)
      case Some(i) => Ok(Handler(i, parsed, TextHandlerAsWritten))
      case None => Err(NoHandlerError(req))
  {
    assert FirstBody(parsed, TextHandlerAsWritten, 0) == FirstBody(parsed, TextHandlerAsWritten, 3);
  }

  // ----------------------------------------------------------------- whole

  /** The filled parameters; `verb` is the key `method`. */
  datatype FilledParams = FilledParams(verb: string, protocolMethod: string, params: Record, payload: Value)

  /** `httpFillParams`: the method first (its error wins), then the
      parameters, then the payload. */
  function HttpFillParams(protocolMethod: string, queryParams: Record, appHeaders: Record, transtype: Value -> Value,
                          req: Request, toNumber: string -> Option<real>, parsed: Parsed, textHandler: TextHandlerFn):
    (r: Result<FilledParams>)
    ensures GetMethod(protocolMethod).Err? ==> r == Err(UnsupportedMethod(protocolMethod))
    ensures GetMethod(protocolMethod).Ok? && Payload(req, toNumber, parsed, textHandler).Err? ==> r == Err(Payload(req, toNumber, parsed, textHandler).error)
    ensures r.Ok? ==> r.value.protocolMethod == protocolMethod && MethodMap(protocolMethod) == Some(r.value.verb)
    ensures r.Ok? ==> r.value.params == GetParams(queryParams, appHeaders, transtype)
    ensures r.Ok? ==> Payload(req, toNumber, parsed, textHandler) == Ok(r.value.payload)
  {
    match GetMethod(protocolMethod)
    case Err(e) => Err(e)
    case Ok(m) =>
      var params := GetParams(queryParams, appHeaders, transtype);
      match Payload(req, toNumber, parsed, textHandler)
      case Err(e) => Err(e)
      case Ok(payload) => Ok(FilledParams(m.verb, m.protocolMethod, params, payload))
  }
}
