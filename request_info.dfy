/** The `requestinfo` record of events (src/events/request_info/builder.js),
    built from the request's state. `MODEL_TYPES` and `getReason` are
    parameters. The record has a fixed set of keys, so it is a datatype with
    one field per key. */
module RequestInfo {
  import opened Values
  import opened Outcomes

  /** One field per key of the record; `verb` is the key `method`, a word
      Dafny reserves. */
  datatype Info = Info(
    requestid: Value, timestamp: Value, responsetime: Value, ip: Value, protocol: Value,
    url: Value, origin: Value, path: Value, verb: Value, protocolstatus: Value, status: Value,
    pathvars: Value, queryvars: Value, requestheaders: Value, responseheaders: Value,
    payload: Value, operation: Value, summary: Value, args: Value, commandpath: Value,
    command: Value, model: Value, responseData: Value, responsetype: Value,
    modelscount: Value, uniquecount: Value, error: Value)

  const ContentMissing := Plain("Cannot read property 'data' of undefined")
  const ResponseNull := Plain("Cannot destructure property 'content' of 'response'")

  /** `responseData`: the `data` of the content for model responses, the
      whole content otherwise. */
  function ResponseData(modelTypes: seq<Value>, responsetype: Value, content: Value): (r: Result<Value>)
    ensures responsetype !in modelTypes ==> r == Ok(content)
    ensures responsetype in modelTypes && (content == Undefined || content == Null) ==> r == Err(ContentMissing)
    ensures responsetype in modelTypes && content != Undefined && content != Null ==> r == Ok(Prop(content, "data"))
  {
    if responsetype !in modelTypes then Ok(content)
    else if content == Undefined || content == Null then Err(ContentMissing)
    else Ok(Prop(content, "data"))
  }

  /** `error && getReason({ error })` */
  function ErrorReason(error: Value, getReason: Value -> Value): (r: Value)
    ensures !Truthy(error) ==> r == error
    ensures Truthy(error) ==> r == getReason(error)
  {
    if Truthy(error) then getReason(error) else error
  }

  /** `buildRequestinfo`: fails only where the source reads a property of
      `null` or `undefined`; every other key is copied, except `status`
      (defaulting to `SERVER_ERROR`), the renamed `args` and `model`, the
      response's type and data, and the error's reason. */
  function BuildRequestinfo(mInput: Record, modelTypes: seq<Value>, getReason: Value -> Value): (r: Result<Info>)
    ensures r.Err? <==> (Get(mInput, "response") == Null ||
      (Prop(Get(mInput, "response"), "type") in modelTypes &&
       Prop(Get(mInput, "response"), "content") in {Undefined, Null}))
    ensures r.Ok? ==>
      && r.value.requestid == Get(mInput, "requestid") && r.value.timestamp == Get(mInput, "timestamp")
      && r.value.responsetime == Get(mInput, "responsetime") && r.value.ip == Get(mInput, "ip")
      && r.value.protocol == Get(mInput, "protocol") && r.value.url == Get(mInput, "url")
      && r.value.origin == Get(mInput, "origin") && r.value.path == Get(mInput, "path")
      && r.value.verb == Get(mInput, "method") && r.value.protocolstatus == Get(mInput, "protocolstatus")
      && r.value.pathvars == Get(mInput, "pathvars") && r.value.queryvars == Get(mInput, "queryvars")
      && r.value.requestheaders == Get(mInput, "requestheaders")
      && r.value.responseheaders == Get(mInput, "responseheaders")
      && r.value.payload == Get(mInput, "payload") && r.value.operation == Get(mInput, "operation")
      && r.value.summary == Get(mInput, "summary") && r.value.commandpath == Get(mInput, "commandpath")
      && r.value.command == Get(mInput, "command") && r.value.modelscount == Get(mInput, "modelscount")
      && r.value.uniquecount == Get(mInput, "uniquecount")
    ensures r.Ok? ==> r.value.status == (if Get(mInput, "status") == Undefined then Str("SERVER_ERROR") else Get(mInput, "status"))
    ensures r.Ok? ==> r.value.args == Get(mInput, "topArgs") && r.value.model == Get(mInput, "modelName")
    ensures r.Ok? ==> r.value.responsetype == Prop(Get(mInput, "response"), "type")
    ensures r.Ok? ==> (Ok(r.value.responseData) ==
      ResponseData(modelTypes, Prop(Get(mInput, "response"), "type"), Prop(Get(mInput, "response"), "content")))
    ensures r.Ok? ==> r.value.error == ErrorReason(Get(mInput, "error"), getReason)
  {
    var response := Get(mInput, "response");
    if response == Null then Err(ResponseNull)
    else
      var responsetype := Prop(response, "type");
      match ResponseData(modelTypes, responsetype, Prop(response, "content"))
      case Err(e) => Err(e)
      case Ok(responseData) =>
        var status := Get(mInput, "status");
        Ok(Info(
          Get(mInput, "requestid"), Get(mInput, "timestamp"), Get(mInput, "responsetime"), Get(mInput, "ip"),
          Get(mInput, "protocol"), Get(mInput, "url"), Get(mInput, "origin"), Get(mInput, "path"),
          Get(mInput, "method"), Get(mInput, "protocolstatus"),
          if status == Undefined then Str("SERVER_ERROR") else status,
          Get(mInput, "pathvars"), Get(mInput, "queryvars"), Get(mInput, "requestheaders"),
          Get(mInput, "responseheaders"), Get(mInput, "payload"), Get(mInput, "operation"),
          Get(mInput, "summary"), Get(mInput, "topArgs"), Get(mInput, "commandpath"), Get(mInput, "command"),
          Get(mInput, "modelName"), responseData, responsetype, Get(mInput, "modelscount"),
          Get(mInput, "uniquecount"), ErrorReason(Get(mInput, "error"), getReason)))
  }

  /** A request without a response (one that failed before any) still gets
      its record: `response` defaults to `{}`, whose type is not a model
      type. */
  lemma NoResponseStillRecorded(mInput: Record, modelTypes: seq<Value>, getReason: Value -> Value)
    requires "response" !in mInput && Undefined !in modelTypes
    ensures BuildRequestinfo(mInput, modelTypes, getReason).Ok?
    ensures BuildRequestinfo(mInput, modelTypes, getReason).value.responseData == Undefined
    ensures BuildRequestinfo(mInput, modelTypes, getReason).value.status == Str("SERVER_ERROR") || "status" in mInput
  {
  }
}
