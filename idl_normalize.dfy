/** Normalisation of the IDL (src/idl/normalize.js): command-name shortcuts,
    the actions the commands allow, model and attribute tags, and the
    callbacks of the model transforms. The generic `transform` driver that
    walks the models and merges what the callbacks return, the `actions`
    table and `compileIdlJsl` are parameters. */
module IdlNormalize {
  import opened Values
  import opened Outcomes
  import opened Text

  // -------------------------------------------------------- command names

  /** `/(One)|(Many)$/.test(name)`: the alternation binds loosest, so this is
      `One` anywhere in the name, or `Many` at its end. */
  predicate IsFullCommandName(name: string) {
    Contains(name, "One") || EndsWith(name, "Many")
  }

  /** One name of `normalizeCommandNames`: kept, or expanded to both forms. */
  function ExpandCommandName(name: string): (r: seq<string>)
    ensures IsFullCommandName(name) ==> r == [name]
    ensures !IsFullCommandName(name) ==> r == [name + "One", name + "Many"]
    ensures forall i :: 0 <= i < |r| ==> IsFullCommandName(r[i])
  {
    if IsFullCommandName(name) then [name]
    else
      ContainsPrefixed(name, "One", "");
      assert name + "One" + "" == name + "One";
      EndsWithConcat(name, "Many");
      [name + "One", name + "Many"]
  }

  /** `normalizeCommandNames`: each name in turn, in order. */
  function NormalizeCommandNames(names: seq<string>): (r: seq<string>)
    ensures |names| <= |r| <= 2 * |names|
    ensures forall i :: 0 <= i < |r| ==> IsFullCommandName(r[i])
  {
    if names == [] then []
    else ExpandCommandName(names[0]) + NormalizeCommandNames(names[1..])
  }

  lemma {:induction false} NormalizeConcat(a: seq<string>, b: seq<string>)
    ensures NormalizeCommandNames(a + b) == NormalizeCommandNames(a) + NormalizeCommandNames(b)
  {
    if a == [] {
      assert a + b == b;
    } else {
      assert (a + b)[0] == a[0];
      assert (a + b)[1..] == a[1..] + b;
      NormalizeConcat(a[1..], b);
    }
  }

  /** Names that are already full are left as they are. */
  lemma {:induction false} NormalizeFullNames(names: seq<string>)
    requires forall i :: 0 <= i < |names| ==> IsFullCommandName(names[i])
    ensures NormalizeCommandNames(names) == names
  {
    if names != [] {
      NormalizeFullNames(names[1..]);
      assert [names[0]] + names[1..] == names;
    }
  }

  /** `normalizeCommandNames` is idempotent, so applying it globally and then
      again per model changes nothing more. */
  lemma NormalizeIdempotent(names: seq<string>)
    ensures NormalizeCommandNames(NormalizeCommandNames(names)) == NormalizeCommandNames(names)
  {
    NormalizeFullNames(NormalizeCommandNames(names));
  }

  /** A name is among the normalised names exactly when some input name
      expands to it. */
  lemma {:induction false} NormalizeMembers(names: seq<string>, x: string)
    ensures x in NormalizeCommandNames(names) <==>
            exists i :: 0 <= i < |names| && x in ExpandCommandName(names[i])
  {
    if names != [] {
      NormalizeMembers(names[1..], x);
      if x in NormalizeCommandNames(names[1..]) {
        var i :| 0 <= i < |names[1..]| && x in ExpandCommandName(names[1..][i]);
        assert x in ExpandCommandName(names[i + 1]);
      }
      if exists i :: 0 <= i < |names| && x in ExpandCommandName(names[i]) {
        var i :| 0 <= i < |names| && x in ExpandCommandName(names[i]);
        if i > 0 {
          assert x in ExpandCommandName(names[1..][i - 1]);
        }
      }
    }
  }

  /** `defaultCommandNames`: every command except `deleteMany`. */
  const DefaultCommandNames: seq<string> :=
    ["createOne", "createMany", "readOne", "readMany", "updateOne", "updateMany", "deleteOne"]

  lemma DefaultsAreNormal()
    ensures "deleteMany" !in DefaultCommandNames
    ensures NormalizeCommandNames(DefaultCommandNames) == DefaultCommandNames
  {
    var d := DefaultCommandNames;
    forall i | 0 <= i < |d| ensures IsFullCommandName(d[i]) {
      if i % 2 == 1 {
        assert d[i] == d[i][..|d[i]| - 4] + "Many";
        EndsWithConcat(d[i][..|d[i]| - 4], "Many");
      } else {
        assert d[i] == d[i][..|d[i]| - 3] + "One" + "";
        ContainsPrefixed(d[i][..|d[i]| - 3], "One", "");
      }
    }
    NormalizeFullNames(d);
  }

  // --------------------------------------------------------------- actions

  /** An entry of the `actions` table: its name and the commands it needs. */
  datatype ActionDef = ActionDef(name: string, commandNames: seq<string>)

  /** `difference(required, commandNames).length === 0` */
  predicate Allowed(a: ActionDef, commandNames: seq<string>) {
    forall i :: 0 <= i < |a.commandNames| ==> a.commandNames[i] in commandNames
  }

  /** `getActions`: the names of the actions whose commands are all available. */
  function GetActions(actions: seq<ActionDef>, commandNames: seq<string>): (r: seq<string>)
    ensures |r| <= |actions|
    ensures forall n :: n in r <==> exists i :: 0 <= i < |actions| && actions[i].name == n && Allowed(actions[i], commandNames)
  {
    if actions == [] then []
    else
      var rest := GetActions(actions[1..], commandNames);
      assert forall i :: 1 <= i < |actions| ==> actions[i] == actions[1..][i - 1];
      if Allowed(actions[0], commandNames) then [actions[0].name] + rest else rest
  }

  /** `getActions` keeps declaration order. */
  lemma {:induction false} GetActionsConcat(a: seq<ActionDef>, b: seq<ActionDef>, commandNames: seq<string>)
    ensures GetActions(a + b, commandNames) == GetActions(a, commandNames) + GetActions(b, commandNames)
  {
    if a == [] {
      assert a + b == b;
    } else {
      assert (a + b)[0] == a[0];
      assert (a + b)[1..] == a[1..] + b;
      GetActionsConcat(a[1..], b, commandNames);
    }
  }

  // ------------------------------------------------------- model tagging

  /** One attribute of `addModelType`: tagged, and its `items` too when set. */
  function TagAttribute(prop: Value): (r: Value)
    ensures r.Obj? && r.fields.Keys == Fields(prop).Keys + {"modelType"}
    ensures r.fields["modelType"] == Str("attribute")
    ensures Truthy(Prop(prop, "items")) ==>
      r.fields["items"] == Obj(Assign(Fields(Prop(prop, "items")), map["modelType" := Str("attribute")]))
    ensures forall k :: k in Fields(prop) && k != "modelType" && (k != "items" || !Truthy(Prop(prop, "items"))) ==>
      r.fields[k] == Fields(prop)[k]
  {
    var tagged := Assign(Fields(prop), map["modelType" := Str("attribute")]);
    var items := Get(tagged, "items");
    if Truthy(items) then
      Obj(tagged["items" := Obj(Assign(Fields(items), map["modelType" := Str("attribute")]))])
    else Obj(tagged)
  }

  /** One model of `addModelType`. */
  function TagModel(model: Value): (r: Value)
    ensures r.Obj? && r.fields.Keys == Fields(model).Keys + {"modelType", "properties"}
    ensures r.fields["modelType"] == Str("model")
    ensures r.fields["properties"].Obj?
    ensures r.fields["properties"].fields.Keys == Fields(Prop(model, "properties")).Keys
    ensures forall k :: k in Fields(model) && k !in {"modelType", "properties"} ==> r.fields[k] == Fields(model)[k]
  {
    var props := Fields(Prop(model, "properties"));
    var properties := map k | k in props :: TagAttribute(props[k]);
    Obj(Assign(Fields(model), map["modelType" := Str("model"), "properties" := Obj(properties)]))
  }

  /** `addModelType`: every model tagged `model`, every attribute `attribute`. */
  function AddModelType(models: map<string, Value>): (r: map<string, Value>)
    ensures r.Keys == models.Keys
    ensures forall m :: m in r ==> Prop(r[m], "modelType") == Str("model")
    ensures forall m, p :: m in r && p in Fields(Prop(r[m], "properties")) ==>
      Prop(Fields(Prop(r[m], "properties"))[p], "modelType") == Str("attribute")
  {
    map m | m in models :: TagModel(models[m])
  }

  // ---------------------------------------------- the transform callbacks

  /** Defaults `type` to `array` when only `items` is set. */
  function ArrayTypeDefault(parent: Record): (r: Option<Record>)
    ensures r.Some? <==> !Truthy(Get(parent, "type")) && Truthy(Get(parent, "items"))
    ensures r.Some? ==> r.value == map["type" := Str("array")]
  {
    if Truthy(Get(parent, "type")) || !Truthy(Get(parent, "items")) then None
    else Some(map["type" := Str("array")])
  }

  /** Top-level models are objects, and their `model` defaults to their key. */
  function TopLevelDefaults(parent: Record, parentKey: string): (r: Option<Record>)
    ensures r.Some? <==> Get(parent, "modelType") == Str("model")
    ensures r.Some? ==> r.value.Keys == {"type", "model"} && r.value["type"] == Str("object")
    ensures r.Some? ==> r.value["model"] == (if Truthy(Get(parent, "model")) then Get(parent, "model") else Str(parentKey))
  {
    if Get(parent, "modelType") != Str("model") then None
    else
      var model := Get(parent, "model");
      Some(map["type" := Str("object"), "model" := if Truthy(model) then model else Str(parentKey)])
  }

  /** An attribute without a type is an object when it points to a model,
      otherwise a string. */
  function AttributeTypeDefault(parent: Record): (r: Option<Record>)
    ensures r.Some? <==> Get(parent, "modelType") == Str("attribute") && !Truthy(Get(parent, "type"))
    ensures r.Some? ==> r.value == map["type" := if Truthy(Get(parent, "model")) then Str("object") else Str("string")]
  {
    if Get(parent, "modelType") != Str("attribute") || Truthy(Get(parent, "type")) then None
    else Some(map["type" := if Truthy(Get(parent, "model")) then Str("object") else Str("string")])
  }

  /** Custom properties are never allowed. */
  const NoCustomProperties: Record := map["additionalProperties" := Bool(false)]

  /** The commands of a model (its own, or the defaults) and its actions. */
  datatype CommandsPatch = CommandsPatch(commands: seq<string>, actions: seq<string>)

  function CommandsDefaults(commands: Option<seq<string>>, defaultCommandNames: seq<string>,
                            actions: seq<ActionDef>): (r: CommandsPatch)
    ensures r.commands == NormalizeCommandNames(if commands.Some? then commands.value else defaultCommandNames)
    ensures forall n :: n in r.actions <==>
      exists i :: 0 <= i < |actions| && actions[i].name == n && Allowed(actions[i], r.commands)
  {
    var names := NormalizeCommandNames(if commands.Some? then commands.value else defaultCommandNames);
    CommandsPatch(names, GetActions(actions, names))
  }

  /** The top-level model a `model` value names (`find` over the keys of
      the root), `undefined` when there is none. */
  function ReferredModel(value: Value, root: map<string, Value>): (r: Value)
    ensures value.Str? && value.s in root ==> r == root[value.s]
    ensures !(value.Str? && value.s in root) ==> r == Undefined
  {
    if value.Str? then Get(root, value.s) else Undefined
  }

  /** `{ model: 'name' }` gets the properties of the model it names that it
      does not define itself; a missing model adds nothing. The source skips
      the model pointing to itself by object identity; by value, that case
      adds nothing either (see DereferenceSelf). */
  function Dereference(value: Value, parent: Record, root: map<string, Value>): (r: Option<Record>)
    ensures r.None? <==> ReferredModel(value, root) == Obj(parent)
    ensures r.Some? ==> r.value.Keys == Fields(ReferredModel(value, root)).Keys - parent.Keys
    ensures r.Some? ==> forall k :: k in r.value ==> r.value[k] == Fields(ReferredModel(value, root))[k]
  {
    var instance := ReferredModel(value, root);
    if instance == Obj(parent) then None
    else Some(map k | k in Fields(instance) && k !in parent :: Fields(instance)[k])
  }

  /** Had the self-reference not been skipped, it would have added nothing. */
  lemma DereferenceSelf(value: Value, parent: Record, root: map<string, Value>)
    requires ReferredModel(value, root) == Obj(parent)
    ensures Fields(ReferredModel(value, root)).Keys - parent.Keys == {}
  {
  }

  // ------------------------------------------------------------ normalizeIdl

  datatype IdlState = IdlState(commands: Option<seq<string>>, models: map<string, Value>, rest: Record)

  /** The IDL definition, whose `commands` and `models` are overwritten. */
  class Idl {
    var commands: Option<seq<string>>
    var models: map<string, Value>
    var rest: Record

    constructor (commands: Option<seq<string>>, models: map<string, Value>, rest: Record)
      ensures this.commands == commands && this.models == models && this.rest == rest
    {
      this.commands := commands;
      this.models := models;
      this.rest := rest;
    }

    function State(): IdlState
      reads this
    {
      IdlState(commands, models, rest)
    }
  }

  /** `normalizeIdl`: the normalised commands (defaults when absent), then
      the tagged models handed to the transforms, then `compileIdlJsl`. */
  method NormalizeIdl(idl: Idl,
                      transformModels: (map<string, Value>, seq<string>) -> map<string, Value>,
                      compileIdlJsl: IdlState -> IdlState)
    returns (r: IdlState)
    modifies idl
    ensures var names := NormalizeCommandNames(if old(idl.commands).Some? then old(idl.commands).value else DefaultCommandNames);
      && idl.commands == Some(names)
      && idl.models == transformModels(AddModelType(old(idl.models)), names)
    ensures idl.rest == old(idl.rest)
    ensures r == compileIdlJsl(idl.State())
  {
    var names := NormalizeCommandNames(if idl.commands.Some? then idl.commands.value else DefaultCommandNames);
    idl.commands := Some(names);
    idl.models := transformModels(AddModelType(idl.models), names);
    r := compileIdlJsl(idl.State());
  }
}
