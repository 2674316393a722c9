/** The `replace` action (src/middleware/action/execute/actions/replace.js):
    a table of two command builders. The sequencer runs the first, then
    hands its response to the second.
    `dataToFilter` and `getCurrentData` are not part of this model: they are
    parameters. */
module ReplaceAction {
  import opened Values

  /** The command input one step builds: a command name and its arguments. */
  datatype CommandInput = CommandInput(command: string, args: Record)

  /** The entries of the `replace` table. */
  datatype Step = ReadStep | UpdateStep

  /** `replaceAction`: first read the current models, then update them. */
  const Replace: seq<Step> := [ReadStep, UpdateStep]

  /** `readCommand`: a read whose only argument is the filter derived from
      the action's arguments (pagination is not passed). */
  function ReadCommand(args: Record, dataToFilter: Record -> Value): (c: CommandInput)
    ensures c.command == "read"
    ensures c.args.Keys == {"filter"}
    ensures c.args["filter"] == dataToFilter(args)
  {
    CommandInput("read", map["filter" := dataToFilter(args)])
  }

  /** `updateCommand`: an update from the models the read returned to the
      action's `data`. */
  function UpdateCommand(args: Record, readResponse: Record,
                         getCurrentData: (Value, Value) -> Value): (c: CommandInput)
    ensures c.command == "update"
    ensures c.args.Keys == {"currentData", "newData"}
    ensures c.args["newData"] == Get(args, "data")
    ensures c.args["currentData"] == getCurrentData(Get(args, "data"), Get(readResponse, "data"))
  {
    var dataArg := Get(args, "data");
    var currentData := getCurrentData(dataArg, Get(readResponse, "data"));
    CommandInput("update", map["currentData" := currentData, "newData" := dataArg])
  }

  /** One entry of the table applied to the action's arguments and to the
      previous step's response (the read step ignores it). */
  function RunStep(step: Step, args: Record, previous: Record,
                   dataToFilter: Record -> Value,
                   getCurrentData: (Value, Value) -> Value): CommandInput
  {
    match step
    case ReadStep => ReadCommand(args, dataToFilter)
    case UpdateStep => UpdateCommand(args, previous, getCurrentData)
  }

  /** The commands `replace` expands into, the read's response threaded into
      the update. */
  function ReplaceCommands(args: Record, readResponse: Record,
                           dataToFilter: Record -> Value,
                           getCurrentData: (Value, Value) -> Value): (cs: seq<CommandInput>)
    ensures |cs| == |Replace|
    ensures forall i :: 0 <= i < |cs| ==> "data" !in cs[i].args
  {
    var read := RunStep(Replace[0], args, map[], dataToFilter, getCurrentData);
    var update := RunStep(Replace[1], args, readResponse, dataToFilter, getCurrentData);
    [read, update]
  }

  /** `replace` is exactly a read followed by an update; the read filters on
      the action's arguments, the update's new data is the action's data and
      its current data comes from the read's response. */
  lemma ReplaceIsReadThenUpdate(args: Record, readResponse: Record,
                                dataToFilter: Record -> Value,
                                getCurrentData: (Value, Value) -> Value)
    ensures var cs := ReplaceCommands(args, readResponse, dataToFilter, getCurrentData);
      && |cs| == 2
      && cs[0] == CommandInput("read", map["filter" := dataToFilter(args)])
      && cs[1].command == "update"
      && cs[1].args["newData"] == Get(args, "data")
      && cs[1].args["currentData"] == getCurrentData(Get(args, "data"), Get(readResponse, "data"))
  {
  }

  /** The read does not depend on any response; the update depends on the
      read's response through its `data` and nothing else. */
  lemma UpdateDependsOnReadData(args: Record, r1: Record, r2: Record,
                                dataToFilter: Record -> Value,
                                getCurrentData: (Value, Value) -> Value)
    ensures var c1 := ReplaceCommands(args, r1, dataToFilter, getCurrentData);
            var c2 := ReplaceCommands(args, r2, dataToFilter, getCurrentData);
      && c1[0] == c2[0]
      && (c1[1] == c2[1] <==>
          getCurrentData(Get(args, "data"), Get(r1, "data")) ==
          getCurrentData(Get(args, "data"), Get(r2, "data")))
  {
    var c1 := ReplaceCommands(args, r1, dataToFilter, getCurrentData);
    var c2 := ReplaceCommands(args, r2, dataToFilter, getCurrentData);
    if c1[1] == c2[1] {
      assert c1[1].args["currentData"] == c2[1].args["currentData"];
    }
  }
}
