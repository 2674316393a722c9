/** The JSON schema of a command's arguments
    (src/middleware/action/validate_args/args_schema.js), written as
    predicates on the validated value: the arguments themselves under
    `arguments`, and under `dynamicVars` the values the schema's `$data`
    references read. A `$data` reference that reads nothing switches its
    keyword off. */
module ArgsSchema {
  import opened Values

  /** `dynamicVars` */
  predicate DynamicVarsOk(v: Value) {
    v.Obj? &&
    var d := v.fields;
    && (Present(d, "requiredArgs") ==> IsStringArray(d["requiredArgs"]))
    && (Present(d, "validArgs") ==> IsStringArray(d["validArgs"]))
    && (Present(d, "pagesize") ==> IsInteger(d["pagesize"]))
  }

  /** What `/dynamicVars/<key>` reads. */
  function DynamicVar(dynamicVars: Value, key: string): Value {
    Prop(dynamicVars, key)
  }

  const StringArgs: set<string> := {"after", "before", "cascade", "id", "order", "populate", "rename", "select"}
  const BooleanArgs: set<string> := {"dryrun", "silent"}
  const ArgKeys: set<string> := StringArgs + BooleanArgs + {"data", "filter", "page", "pagesize", "params"}

  /** `required: { $data: '/dynamicVars/requiredArgs' }` */
  predicate RequiredOk(args: Record, requiredArgs: Value) {
    requiredArgs.Arr? ==>
      forall i :: 0 <= i < |requiredArgs.items| && requiredArgs.items[i].Str? ==> Present(args, requiredArgs.items[i].s)
  }

  /** `propertyNames: { enum: { $data: '/dynamicVars/validArgs' } }` */
  predicate NamesOk(args: Record, validArgs: Value) {
    validArgs.Arr? ==> forall k :: k in args ==> Str(k) in validArgs.items
  }

  /** `filter`: an object, or an array of objects. */
  predicate FilterOk(v: Value) {
    v.Obj? || IsObjectArray(v)
  }

  /** `pagesize`: an integer of at least 1, and at most
      `dynamicVars.pagesize` when that is a number. */
  predicate PageSizeOk(v: Value, maxPageSize: Value) {
    IsInteger(v) && v.n >= 1.0 && (maxPageSize.Num? ==> v.n <= maxPageSize.n)
  }

  /** `arguments` */
  predicate ArgumentsOk(v: Value, dynamicVars: Value) {
    v.Obj? &&
    var a := v.fields;
    && RequiredOk(a, DynamicVar(dynamicVars, "requiredArgs"))
    && NamesOk(a, DynamicVar(dynamicVars, "validArgs"))
    && (forall k :: k in a ==> k in ArgKeys)
    && (forall k :: k in StringArgs && Present(a, k) ==> a[k].Str?)
    && (forall k :: k in BooleanArgs && Present(a, k) ==> a[k].Bool?)
    && (Present(a, "filter") ==> FilterOk(a["filter"]))
    && (Present(a, "page") ==> IsInteger(a["page"]) && a["page"].n >= 1.0)
    && (Present(a, "pagesize") ==> PageSizeOk(a["pagesize"], DynamicVar(dynamicVars, "pagesize")))
    && (Present(a, "params") ==> a["params"].Obj?)
  }

  /** The `if` of the root's `allOf`: it holds unless `dynamicVars` is an
      object whose `multiple` is set to something other than `true`. */
  predicate MultipleIf(root: Record) {
    !(Present(root, "dynamicVars") && root["dynamicVars"].Obj? &&
      Present(root["dynamicVars"].fields, "multiple") && root["dynamicVars"].fields["multiple"] != Bool(true))
  }

  /** The root-level `data`: an array of objects under the `then`, an
      object under the `else`. */
  predicate RootDataOk(root: Record) {
    Present(root, "data") ==> if MultipleIf(root) then IsObjectArray(root["data"]) else root["data"].Obj?
  }

  /** The whole schema. */
  predicate ArgsSchemaOk(v: Value) {
    v.Obj? &&
    var r := v.fields;
    && (Present(r, "dynamicVars") ==> DynamicVarsOk(r["dynamicVars"]))
    && (Present(r, "arguments") ==> ArgumentsOk(r["arguments"], Get(r, "dynamicVars")))
    && RootDataOk(r)
  }

  /** Every argument is one of the schema's and, when `validArgs` is given,
      one of those. */
  lemma ArgumentKeys(r: Record, k: string)
    requires ArgsSchemaOk(Obj(r)) && Present(r, "arguments") && k in r["arguments"].fields
    ensures k in ArgKeys
    ensures DynamicVar(Get(r, "dynamicVars"), "validArgs").Arr? ==>
      Str(k) in DynamicVar(Get(r, "dynamicVars"), "validArgs").items
  {
  }

  /** An argument outside `validArgs` is rejected, even one the schema
      declares. */
  lemma InvalidArgumentRejected(r: Record, k: string)
    requires Present(r, "arguments") && r["arguments"].Obj? && k in r["arguments"].fields
    requires DynamicVar(Get(r, "dynamicVars"), "validArgs").Arr?
    requires Str(k) !in DynamicVar(Get(r, "dynamicVars"), "validArgs").items
    ensures !ArgsSchemaOk(Obj(r))
  {
  }

  /** Every name in `requiredArgs` is set. */
  lemma RequiredArguments(r: Record, i: nat)
    requires ArgsSchemaOk(Obj(r)) && Present(r, "arguments")
    requires Present(r, "dynamicVars") && Present(r["dynamicVars"].fields, "requiredArgs")
    requires i < |r["dynamicVars"].fields["requiredArgs"].items|
    ensures Present(r["arguments"].fields, r["dynamicVars"].fields["requiredArgs"].items[i].s)
  {
  }

  /** The types and bounds of the arguments that are set. */
  lemma ArgumentTypes(r: Record)
    requires ArgsSchemaOk(Obj(r)) && Present(r, "arguments")
    ensures var a := r["arguments"].fields;
      && (forall k :: k in StringArgs && Present(a, k) ==> a[k].Str?)
      && (forall k :: k in BooleanArgs && Present(a, k) ==> a[k].Bool?)
      && (Present(a, "filter") ==> (a["filter"].Obj? || (a["filter"].Arr? &&
            forall i :: 0 <= i < |a["filter"].items| ==> a["filter"].items[i].Obj?)))
      && (Present(a, "page") ==> IsInteger(a["page"]) && a["page"].n >= 1.0)
      && (Present(a, "pagesize") ==> IsInteger(a["pagesize"]) && a["pagesize"].n >= 1.0)
  {
  }

  /** `pagesize` never exceeds a `dynamicVars.pagesize` that is set. */
  lemma PageSizeBounded(r: Record)
    requires ArgsSchemaOk(Obj(r)) && Present(r, "arguments") && Present(r["arguments"].fields, "pagesize")
    requires Present(r, "dynamicVars") && Present(r["dynamicVars"].fields, "pagesize")
    ensures 1.0 <= r["arguments"].fields["pagesize"].n <= r["dynamicVars"].fields["pagesize"].n
  {
  }

  /** The root-level `data`: an array of objects when `multiple` is `true`,
      an object when it is set to anything else; and, as the `if` is
      written, an array when `multiple` is not set. */
  lemma RootDataRule(r: Record)
    requires ArgsSchemaOk(Obj(r)) && Present(r, "data")
    ensures Present(r, "dynamicVars") && Prop(r["dynamicVars"], "multiple") == Bool(true) ==> IsObjectArray(r["data"])
    ensures (Present(r, "dynamicVars") && Present(r["dynamicVars"].fields, "multiple") &&
      r["dynamicVars"].fields["multiple"] != Bool(true)) ==> r["data"].Obj?
    ensures !Present(r, "dynamicVars") || !Present(r["dynamicVars"].fields, "multiple") ==> IsObjectArray(r["data"])
  {
  }

  /** `arguments.data` is not constrained: any other value in its place
      keeps the arguments accepted. */
  lemma ArgumentsDataFree(a: Record, dynamicVars: Value, x: Value)
    requires ArgumentsOk(Obj(a), dynamicVars) && Present(a, "data") && x != Undefined
    ensures ArgumentsOk(Obj(a[("data") := x]), dynamicVars)
  {
    var b := a[("data") := x];
    assert b.Keys == a.Keys;
    assert forall k :: Present(b, k) <==> Present(a, k);
    assert RequiredOk(b, DynamicVar(dynamicVars, "requiredArgs"));
    assert NamesOk(b, DynamicVar(dynamicVars, "validArgs"));
    assert forall k :: k in StringArgs + BooleanArgs ==> k != "data";
    assert Get(b, "filter") == Get(a, "filter") && Get(b, "page") == Get(a, "page");
    assert Get(b, "pagesize") == Get(a, "pagesize") && Get(b, "params") == Get(a, "params");
  }
}
