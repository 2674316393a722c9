/** Firing one read command of the sequencer
    (src/middleware/sequencer/main/read/command.js).
    `extractSimpleIds` and the next layer are not part of this model: they
    are parameters. */
module ReadCommand {
  import opened Values
  import opened Outcomes
  import opened Text

  /** The fields of the action that the read uses. */
  datatype ReadAction = ReadAction(commandPath: seq<string>, modelName: Value, internal: Value)

  /** `isEmptyCommand`: the parent gave no ids, so there is nothing to read. */
  function IsEmptyCommand(args: Record, extractSimpleIds: Record -> Value): (r: bool)
    ensures r <==> extractSimpleIds(args).Arr? && |extractSimpleIds(args).items| == 0
  {
    var ids := extractSimpleIds(args);
    ids.Arr? && |ids.items| == 0
  }

  /** The arguments forwarded downstream: the caller's, with `internal` set
      (default `false`) and without `data`. */
  function ForwardedArgs(args: Record, internal: Value): (r: Record)
    ensures r.Keys == (args.Keys - {"data"}) + {"internal"}
    ensures r["internal"] == (if internal == Undefined then Bool(false) else internal)
    ensures forall k :: k in args && k != "data" && k != "internal" ==> r[k] == args[k]
  {
    var internalA := if internal == Undefined then Bool(false) else internal;
    Omit(Assign(args, map["internal" := internalA]), "data")
  }

  /** The input handed to the next layer, or `None` when the command is
      empty and the next layer is not called. */
  function ReadRequest(action: ReadAction, mInput: Record, command: Record, args: Record,
                       extractSimpleIds: Record -> Value): (r: Option<Record>)
    ensures r.None? <==> IsEmptyCommand(args, extractSimpleIds)
    ensures r.Some? ==> r.value.Keys == mInput.Keys + {"commandPath", "modelName", "args", "command"}
    ensures r.Some? ==> r.value["commandPath"] == Str(Join(action.commandPath, "."))
    ensures r.Some? ==> r.value["modelName"] == action.modelName
    ensures r.Some? ==> r.value["args"] == Obj(ForwardedArgs(args, action.internal))
    ensures r.Some? ==> r.value["command"] == Get(command, "type")
    ensures r.Some? ==> forall k :: k in mInput && k !in {"commandPath", "modelName", "args", "command"} ==>
                          r.value[k] == mInput[k]
  {
    if IsEmptyCommand(args, extractSimpleIds) then None
    else
      Some(Assign(mInput, map[
        "commandPath" := Str(Join(action.commandPath, ".")),
        "modelName" := action.modelName,
        "args" := Obj(ForwardedArgs(args, action.internal)),
        "command" := Get(command, "type")]))
  }

  /** `fireReadCommand`: `[]` for an empty command, otherwise the `data` of
      the next layer's `response` (reading it from a missing response is a
      `TypeError`). */
  function FireReadCommand(action: ReadAction, mInput: Record, command: Record, args: Record,
                           extractSimpleIds: Record -> Value, nextLayer: Record -> Record): (r: Result<Value>)
    ensures IsEmptyCommand(args, extractSimpleIds) ==> r == Ok(Arr([]))
    ensures !IsEmptyCommand(args, extractSimpleIds) ==>
      var response := Get(nextLayer(ReadRequest(action, mInput, command, args, extractSimpleIds).value), "response");
      && (r.Err? <==> response == Undefined || response == Null)
      && (r.Ok? ==> r.value == Prop(response, "data"))
  {
    match ReadRequest(action, mInput, command, args, extractSimpleIds)
    case None => Ok(Arr([]))
    case Some(request) =>
      var response := Get(nextLayer(request), "response");
      if response == Undefined || response == Null then
        Err(Plain("Cannot destructure property 'data' of 'response'"))
      else Ok(Prop(response, "data"))
  }
}
