/** The standard error record (src/error/standard.js): the fields of the
    request's log information and of the normalised error, merged with the
    error's `extra` fields, without `undefined` values. `normalizeError`,
    `getReason` and `getGenericProps` are outside the model: the
    normalised error, its reason and its title are inputs. */
module StandardError {
  import opened Values
  import opened Outcomes

  /** `v && v.name` */
  function NameOf(v: Value): (r: Value)
    ensures !Truthy(v) ==> r == v
    ensures Truthy(v) ==> r == Prop(v, "name")
  {
    if Truthy(v) then Prop(v, "name") else v
  }

  /** `status = 'SERVER_ERROR'` */
  function StatusOrDefault(status: Value): (r: Value)
    ensures status == Undefined ==> r == Str("SERVER_ERROR")
    ensures status != Undefined ==> r == status
  {
    if status == Undefined then Str("SERVER_ERROR") else status
  }

  /** `innererror: { stack: details = outerStack } = {}`: `None` when
      destructuring `null` throws. */
  function Details(error: Record): (r: Option<Value>)
    ensures r.None? <==> Get(error, "innererror") == Null
    ensures r.Some? && Prop(Get(error, "innererror"), "stack") != Undefined ==> r.value == Prop(Get(error, "innererror"), "stack")
    ensures r.Some? && Prop(Get(error, "innererror"), "stack") == Undefined ==> r.value == Get(error, "stack")
  {
    var inner := Get(error, "innererror");
    if inner == Null then None
    else
      var stack := Prop(inner, "stack");
      Some(if stack != Undefined then stack else Get(error, "stack"))
  }

  /** The first source of `Object.assign`: the fields of the log
      information and of the error, in their output names. */
  function BaseFields(logInfo: Record, error: Record, reason: Value, title: Value): Record {
    map[
      "type" := reason,
      "title" := title,
      "description" := Get(error, "message"),
      "instance" := Get(logInfo, "url"),
      "status" := StatusOrDefault(Get(logInfo, "status")),
      "protocol_status" := Get(logInfo, "protocolStatus"),
      "protocol" := Get(logInfo, "protocol"),
      "method" := Get(logInfo, "method"),
      "headers" := Get(logInfo, "headers"),
      "queryVars" := Get(logInfo, "queryVars"),
      "operation" := Get(logInfo, "operation"),
      "action" := NameOf(Get(logInfo, "action")),
      "action_path" := Get(logInfo, "fullAction"),
      "model" := Get(logInfo, "model"),
      "args" := Get(logInfo, "args"),
      "command" := NameOf(Get(logInfo, "command"))]
  }

  const DestructureNull := Plain("Cannot destructure a null value")

  /** The last source of `Object.assign`. */
  function LastFields(logInfo: Record, details: Value): (r: Record)
    ensures r.Keys == {"request_id", "details"}
    ensures r["request_id"] == Get(logInfo, "requestId") && r["details"] == details
  {
    map["request_id" := Get(logInfo, "requestId"), "details" := details]
  }

  /** `getStandardError`, given `log.logInfo` (`undefined` stands for `{}`,
      `null` throws). */
  function GetStandardError(logInfoValue: Value, error: Record, reason: Value, title: Value): (r: Result<Record>)
    ensures r.Err? <==> logInfoValue == Null || Get(error, "innererror") == Null
    ensures r.Ok? ==> forall k :: k in r.value ==> r.value[k] != Undefined
    ensures r.Ok? ==> r.value == Merge(BaseFields(Fields(logInfoValue), error, reason, title), Fields(Get(error, "extra")),
                                       LastFields(Fields(logInfoValue), Details(error).value))
  {
    if logInfoValue == Null then Err(DestructureNull)
    else match Details(error)
      case None => Err(DestructureNull)
      case Some(details) =>
        var logInfo := Fields(logInfoValue);
        Ok(Merge(BaseFields(logInfo, error, reason, title), Fields(Get(error, "extra")), LastFields(logInfo, details)))
  }

  /** `request_id` and `details` win over everything. */
  lemma StandardErrorLast(logInfoValue: Value, error: Record, reason: Value, title: Value)
    requires logInfoValue != Null && Get(error, "innererror") != Null
    ensures Get(GetStandardError(logInfoValue, error, reason, title).value, "request_id") == Get(Fields(logInfoValue), "requestId")
    ensures Get(GetStandardError(logInfoValue, error, reason, title).value, "details") == Details(error).value
  {
  }

  /** `extra` wins over the fields of the log and of the error. */
  lemma StandardErrorExtra(logInfoValue: Value, error: Record, reason: Value, title: Value)
    requires logInfoValue != Null && Get(error, "innererror") != Null
    ensures var r := GetStandardError(logInfoValue, error, reason, title).value;
      var extra := Fields(Get(error, "extra"));
      forall k :: k in extra && k !in {"request_id", "details"} ==> Get(r, k) == extra[k]
  {
  }

  /** Any other key is read from the fields of the log and of the error. */
  lemma StandardErrorBase(logInfoValue: Value, error: Record, reason: Value, title: Value)
    requires logInfoValue != Null && Get(error, "innererror") != Null
    ensures var r := GetStandardError(logInfoValue, error, reason, title).value;
      var extra := Fields(Get(error, "extra"));
      forall k :: k !in extra && k !in {"request_id", "details"} ==>
        Get(r, k) == Get(BaseFields(Fields(logInfoValue), error, reason, title), k)
  {
  }

  /** Without an `extra` override, `status` is the log's, or
      `SERVER_ERROR`, `action` and `command` are the names of the log's
      action and command, and `description` is the error's message. */
  lemma StandardErrorDefaults(logInfoValue: Value, error: Record, reason: Value, title: Value)
    requires logInfoValue != Null && Get(error, "innererror") != Null
    requires "status" !in Fields(Get(error, "extra")) && "action" !in Fields(Get(error, "extra"))
    requires "command" !in Fields(Get(error, "extra")) && "description" !in Fields(Get(error, "extra"))
    ensures Get(GetStandardError(logInfoValue, error, reason, title).value, "status") == StatusOrDefault(Get(Fields(logInfoValue), "status"))
    ensures Get(GetStandardError(logInfoValue, error, reason, title).value, "action") == NameOf(Get(Fields(logInfoValue), "action"))
    ensures Get(GetStandardError(logInfoValue, error, reason, title).value, "command") == NameOf(Get(Fields(logInfoValue), "command"))
    ensures Get(GetStandardError(logInfoValue, error, reason, title).value, "description") == Get(error, "message")
  {
    var base := BaseFields(Fields(logInfoValue), error, reason, title);
    assert Get(base, "status") == StatusOrDefault(Get(Fields(logInfoValue), "status"));
    assert Get(base, "action") == NameOf(Get(Fields(logInfoValue), "action"));
    assert Get(base, "command") == NameOf(Get(Fields(logInfoValue), "command"));
    assert Get(base, "description") == Get(error, "message");
  }
}
