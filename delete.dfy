/** The `delete` action (src/middleware/action/execute/delete.js): picks the
    single- or multi-row delete command, turns pagination on for the
    multi-row one, writes both into the request record in place and calls
    the next layer with that record. The `COMMANDS` table and the next
    layer are parameters; the performance timer is left out. */
module DeleteAction {
  import opened Values
  import opened Outcomes

  /** An entry of `COMMANDS`. */
  datatype CommandDef = CommandDef(name: string, commandType: string, multiple: bool)

  /** The test of the `find` call: a delete command whose `multiple` is
      strictly equal to the action's. */
  predicate IsDeleteFor(c: CommandDef, isMultiple: Value) {
    c.commandType == "delete" && isMultiple == Bool(c.multiple)
  }

  /** `COMMANDS.find(...)`, searching from index `from`. */
  function FindDeleteCommand(commands: seq<CommandDef>, isMultiple: Value, from: nat): (r: Option<nat>)
    requires from <= |commands|
    ensures r.Some? ==> from <= r.value < |commands| && IsDeleteFor(commands[r.value], isMultiple)
    ensures r.Some? ==> forall j :: from <= j < r.value ==> !IsDeleteFor(commands[j], isMultiple)
    ensures r.None? ==> forall j :: from <= j < |commands| ==> !IsDeleteFor(commands[j], isMultiple)
    decreases |commands| - from
  {
    if from == |commands| then None
    else if IsDeleteFor(commands[from], isMultiple) then Some(from)
    else FindDeleteCommand(commands, isMultiple, from + 1)
  }

  /** The command `delete` selects, `None` standing for `undefined`. */
  function DeleteCommand(commands: seq<CommandDef>, isMultiple: Value): Option<CommandDef> {
    match FindDeleteCommand(commands, isMultiple, 0)
    case None => None
    case Some(i) => Some(commands[i])
  }

  /** When `action.multiple` is not a boolean no command matches, and the
      request goes on with an `undefined` command. */
  lemma NonBooleanMultipleFindsNothing(commands: seq<CommandDef>, isMultiple: Value)
    requires !isMultiple.Bool?
    ensures DeleteCommand(commands, isMultiple) == None
  {
  }

  /** A snapshot of the request record, as the next layer sees it. */
  datatype InputState = InputState(command: Option<CommandDef>, args: Record, action: Record, rest: Record)

  /** The request record middleware layers pass along and update in place. */
  class ActionInput {
    var command: Option<CommandDef>
    var args: Record
    var action: Record
    /** Every other field (`log`, `modelName`, ...). */
    var rest: Record

    constructor (command: Option<CommandDef>, args: Record, action: Record, rest: Record)
      ensures this.command == command && this.args == args
      ensures this.action == action && this.rest == rest
    {
      this.command := command;
      this.args := args;
      this.action := action;
      this.rest := rest;
    }

    function State(): InputState
      reads this
    {
      InputState(command, args, action, rest)
    }
  }

  /** `deleteAction`: `Object.assign(input, { command, args })`, then the
      next layer's response, unchanged. */
  method Delete(input: ActionInput, commands: seq<CommandDef>, next: InputState -> Value)
    returns (response: Value)
    modifies input
    ensures input.command == DeleteCommand(commands, Get(old(input.action), "multiple"))
    ensures input.args == old(input.args)["pagination" := Get(old(input.action), "multiple")]
    ensures input.action == old(input.action) && input.rest == old(input.rest)
    ensures response == next(input.State())
  {
    var isMultiple := Get(input.action, "multiple");
    var command := DeleteCommand(commands, isMultiple);
    var newArgs := Assign(input.args, map["pagination" := isMultiple]);
    input.command, input.args := command, newArgs;
    response := next(input.State());
  }
}
