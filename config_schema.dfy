/** The JSON schema of the configuration
    (src/config/reducers/syntax/config_schema.js), written as predicates on
    the configuration value. Each predicate is what the schema engine
    accepts for one definition: `properties` constrain the keys that are
    set, `additionalProperties: false` limits the keys to the declared ones
    (and to `$`-prefixed ones where `patternProperties` allows them), and a
    keyword about objects is vacuous on a value that is not one. */
module ConfigSchema {
  import opened Values
  import opened Text

  // ----------------------------------------------------------------- names

  predicate IsLowerLetter(c: char) {
    'a' <= c <= 'z'
  }

  predicate IsNameChar(c: char) {
    c == '_' || ('0' <= c <= '9') || IsLowerLetter(c)
  }

  /** `validName`: `^[a-z][_0-9a-z]*$` */
  predicate ValidName(s: string) {
    |s| >= 1 && IsLowerLetter(s[0]) && forall i :: 1 <= i < |s| ==> IsNameChar(s[i])
  }

  /** `validUserName`: `^\$[a-z][_0-9a-z]*$` */
  predicate ValidUserName(s: string) {
    |s| >= 1 && s[0] == '$' && ValidName(s[1..])
  }

  /** `validUserOpName`: `^__[a-z][_0-9a-z]*$` */
  predicate ValidUserOpName(s: string) {
    |s| >= 2 && s[0] == '_' && s[1] == '_' && ValidName(s[2..])
  }

  /** `validClientCollname`: a valid name of at most 100 characters (all of
      them are ASCII, so characters and code points agree). */
  predicate ValidClientCollname(s: string) {
    ValidName(s) && |s| <= 100
  }

  /** `validAttributeName`: a collection name that is not `all`. */
  predicate ValidAttributeName(s: string) {
    ValidClientCollname(s) && s != "all"
  }

  /** `validClientCollnames`: one name, or an array of names. */
  predicate ValidClientCollnames(v: Value) {
    (v.Str? && ValidClientCollname(v.s)) ||
    (v.Arr? && forall i :: 0 <= i < |v.items| ==> v.items[i].Str? && ValidClientCollname(v.items[i].s))
  }

  /** A user name is `$` before a valid name. */
  lemma UserNameOf(n: string)
    ensures ValidUserName("$" + n) <==> ValidName(n)
  {
    assert ("$" + n)[1..] == n;
  }

  /** An operator name is `__` before a valid name. */
  lemma UserOpNameOf(n: string)
    ensures ValidUserOpName("__" + n) <==> ValidName(n)
  {
    assert ("__" + n)[2..] == n;
  }

  /** Plain, user and operator names never overlap. */
  lemma NamesDisjoint(s: string)
    ensures !(ValidName(s) && ValidUserName(s))
    ensures !(ValidName(s) && ValidUserOpName(s))
    ensures !(ValidUserName(s) && ValidUserOpName(s))
  {
  }

  /** `all` names a collection but not an attribute, and a name longer than
      100 characters names neither. */
  lemma NameLimits(s: string)
    ensures ValidClientCollname("all") && !ValidAttributeName("all")
    ensures |s| > 100 ==> !ValidClientCollname(s) && !ValidAttributeName(s)
    ensures ValidAttributeName(s) ==> ValidClientCollname(s)
  {
    assert "all"[0] == 'a' && "all"[1] == 'l' && "all"[2] == 'l';
  }

  // -------------------------------------------------------- shared shapes

  /** A key `patternProperties: { '^\$': true }` lets through. */
  predicate IsUserKey(k: string) {
    |k| > 0 && k[0] == '$'
  }

  /** `additionalProperties: false`, with `$`-prefixed keys allowed when
      `userKeys`. */
  predicate KeysAllowed(r: Record, declared: set<string>, userKeys: bool) {
    forall k :: k in r ==> k in declared || (userKeys && IsUserKey(k))
  }

  predicate IsNonNegativeInteger(v: Value) {
    IsInteger(v) && v.n >= 0.0
  }

  /** `uniqueItems` */
  predicate Distinct(items: seq<Value>) {
    forall i, j :: 0 <= i < j < |items| ==> items[i] != items[j]
  }

  predicate AllIn(items: seq<Value>, allowed: set<Value>) {
    forall i :: 0 <= i < |items| ==> items[i] in allowed
  }

  /** `^\s*\(.*\)\s*$`: a parenthesised single line, with blanks around. */
  predicate IsFuncText(s: string) {
    exists i, j :: 0 <= i < j < |s| && s[i] == '(' && s[j] == ')' &&
      (forall k :: 0 <= k < i ==> IsWhitespace(s[k])) &&
      (forall k :: i < k < j ==> !IsLineTerminator(s[k])) &&
      (forall k :: j < k < |s| ==> IsWhitespace(s[k]))
  }

  /** `configFunc`: a function, or a string written as one. */
  predicate ConfigFunc(v: Value) {
    v.Func? || (v.Str? && IsFuncText(v.s))
  }

  /** `configFuncString`: a function, or a string that is not written as
      one. */
  predicate ConfigFuncString(v: Value) {
    ConfigFunc(v) || (!ConfigFunc(v) && v.Str?)
  }

  /** `configFuncBoolean` */
  predicate ConfigFuncBoolean(v: Value) {
    ConfigFunc(v) || v.Bool?
  }

  // `configFuncOrValue` is `configFunc` or its negation: every value
  // passes, so `value`, `default`, `apply` and `check` are unconstrained.

  /** A `configFuncString` is any function or string. */
  lemma ConfigFuncStringShape(v: Value)
    ensures ConfigFuncString(v) <==> v.Func? || v.Str?
  {
  }

  /** `authorize`: an object, or an array of objects. */
  predicate AuthorizeOk(v: Value) {
    IsObjectArray(v) || v.Obj?
  }

  // ----------------------------------------------------- validation message

  /** `^must\s` */
  predicate MustPrefix(s: string) {
    |s| >= 5 && s[..4] == "must" && IsWhitespace(s[4])
  }

  /** `^\(QmustQ\s.*Q\)$` for the quote `q`. */
  predicate QuotedMust(s: string, q: char) {
    && |s| >= 9 && s[0] == '(' && s[1] == q && s[2..6] == "must" && IsWhitespace(s[6])
    && s[|s| - 2] == q && s[|s| - 1] == ')'
    && forall k :: 7 <= k < |s| - 2 ==> !IsLineTerminator(s[k])
  }

  /** The `anyOf` of patterns a string `message` must match. */
  predicate MustMessage(s: string) {
    MustPrefix(s) || QuotedMust(s, '"') || QuotedMust(s, '\'') || QuotedMust(s, '`')
  }

  /** A message of a custom validation: a function, or a string that reads
      as `must ...`, possibly as a quoted expression. */
  predicate MessageOk(v: Value) {
    ConfigFuncString(v) && (v.Str? ==> MustMessage(v.s))
  }

  /** A message starting with `must` and a blank is accepted. */
  lemma MustSentenceAccepted(w: char, rest: string)
    requires IsWhitespace(w)
    ensures MessageOk(Str("must" + [w] + rest))
  {
    var s := "must" + [w] + rest;
    assert s[..4] == "must" && s[4] == w;
  }

  /** A quoted `must ...` expression in parentheses is accepted. */
  lemma QuotedSentenceAccepted(q: char, w: char, mid: string)
    requires q == '"' || q == '\'' || q == '`'
    requires IsWhitespace(w) && forall k :: 0 <= k < |mid| ==> !IsLineTerminator(mid[k])
    ensures MessageOk(Str("(" + [q] + "must" + [w] + mid + [q] + ")"))
  {
    var s := "(" + [q] + "must" + [w] + mid + [q] + ")";
    assert s[2..6] == "must" && s[6] == w;
    assert forall k :: 7 <= k < |s| - 2 ==> s[k] == mid[k - 7];
    assert QuotedMust(s, q);
  }

  /** Every accepted string message begins with `must` or with a
      parenthesis. */
  lemma MustMessageShape(s: string)
    requires MustMessage(s)
    ensures StartsWith(s, "must") || (StartsWith(s, "(") && EndsWith(s, ")"))
  {
    if !MustPrefix(s) {
      assert s[..1] == [s[0]] && s[|s| - 1..] == [s[|s| - 1]];
    }
  }

  /** `jsonSchemaType`: a type name, or an array of them. */
  predicate JsonSchemaType(v: Value) {
    (v.Str? && v.s in {"string", "number", "integer", "boolean", "empty", "object", "array"}) ||
    (v.Arr? && forall i :: 0 <= i < |v.items| ==> JsonSchemaType(v.items[i]))
  }

  /** One entry of `validation`. */
  predicate ValidationEntryOk(v: Value) {
    v.Obj? &&
    var f := v.fields;
    && KeysAllowed(f, {"test", "message", "type"}, false)
    && (Present(f, "test") ==> ConfigFuncString(f["test"]))
    && (Present(f, "message") ==> MessageOk(f["message"]))
    && (Present(f, "type") ==> JsonSchemaType(f["type"]))
  }

  /** `validation`: custom validations named by user names. */
  predicate ValidationOk(v: Value) {
    v.Obj? &&
    (forall k :: k in v.fields ==> ValidUserName(k)) &&
    (forall k :: k in v.fields ==> ValidationEntryOk(v.fields[k]))
  }

  // ------------------------------------------------------------ operators

  const SimpleTypes: set<Value> := {Str("boolean"), Str("integer"), Str("number"), Str("string"), Str("any")}
  const MultipleTypes: set<Value> := {Str("boolean[]"), Str("integer[]"), Str("number[]"), Str("string[]"), Str("any[]")}
  const ArgumentTypes: set<Value> := SimpleTypes + MultipleTypes +
    {Str("object"), Str("empty"), Str("object[]"), Str("empty[]")}

  /** An operator's `attribute`: distinct types, all simple or all multiple
      (`oneOf`: exactly one of the two). */
  predicate OperatorAttributeOk(v: Value) {
    v.Arr? && Distinct(v.items) && (AllIn(v.items, SimpleTypes) != AllIn(v.items, MultipleTypes))
  }

  /** An operator's `argument`: distinct argument types. */
  predicate OperatorArgumentOk(v: Value) {
    v.Arr? && Distinct(v.items) && AllIn(v.items, ArgumentTypes)
  }

  predicate PatchOperatorOk(v: Value) {
    v.Obj? &&
    var f := v.fields;
    && Present(f, "apply")
    && KeysAllowed(f, {"apply", "check", "attribute", "argument"}, false)
    && (Present(f, "attribute") ==> OperatorAttributeOk(f["attribute"]))
    && (Present(f, "argument") ==> OperatorArgumentOk(f["argument"]))
  }

  /** `operators`: patch operators named by operator names. */
  predicate PatchOperatorsOk(v: Value) {
    v.Obj? &&
    (forall k :: k in v.fields ==> ValidUserOpName(k)) &&
    (forall k :: k in v.fields ==> PatchOperatorOk(v.fields[k]))
  }

  /** An empty `attribute` list satisfies both branches of the `oneOf`, so
      it is rejected, and a list mixing simple and multiple types satisfies
      neither. */
  lemma OperatorAttributeCases(t: Value, u: Value)
    requires t in SimpleTypes && u in MultipleTypes
    ensures !OperatorAttributeOk(Arr([]))
    ensures OperatorAttributeOk(Arr([t])) && OperatorAttributeOk(Arr([u]))
    ensures !OperatorAttributeOk(Arr([t, u]))
  {
    assert t !in MultipleTypes && u !in SimpleTypes;
    assert [t][0] == t && [u][0] == u;
    assert [t, u][1] == u && [t, u][0] == t;
  }

  // ------------------------------------------------------------------ log

  predicate LogAdapterOk(v: Value) {
    v.Obj? &&
    var f := v.fields;
    && KeysAllowed(f, {"provider", "opts", "level"}, false)
    && (Present(f, "provider") ==> f["provider"].Str?)
    && (Present(f, "opts") ==> f["opts"].Obj?)
    && (Present(f, "level") ==> f["level"] in {Str("silent"), Str("info"), Str("log"), Str("warn"), Str("error")})
  }

  /** `log`: one adapter or an array of them. */
  predicate LogOk(v: Value) {
    LogAdapterOk(v) || (v.Arr? && forall i :: 0 <= i < |v.items| ==> LogAdapterOk(v.items[i]))
  }

  // -------------------------------------------------------------- plugins

  predicate PluginOk(v: Value) {
    v.Obj? &&
    var f := v.fields;
    && KeysAllowed(f, {"plugin", "enabled", "opts"}, false)
    && (Present(f, "plugin") ==> f["plugin"].Func? || f["plugin"].Str?)
    && (Present(f, "enabled") ==> f["enabled"].Bool?)
    && (Present(f, "opts") ==> f["opts"].Obj? && forall k :: k in f["opts"].fields ==> ValidName(k))
  }

  predicate PluginsOk(v: Value) {
    v.Arr? && forall i :: 0 <= i < |v.items| ==> PluginOk(v.items[i])
  }

  /** `params`: named by user names. */
  predicate ParamsOk(v: Value) {
    v.Obj? && forall k :: k in v.fields ==> ValidUserName(k)
  }

  // --------------------------------------------------------------- limits

  /** `limits`: `pagesize` a non-negative integer, `maxmodels` an integer,
      `maxpayload` a string or an integer, and no other key. */
  predicate LimitsOk(v: Value) {
    v.Obj? &&
    var f := v.fields;
    && KeysAllowed(f, {"pagesize", "maxmodels", "maxpayload"}, false)
    && (Present(f, "pagesize") ==> IsNonNegativeInteger(f["pagesize"]))
    && (Present(f, "maxmodels") ==> IsInteger(f["maxmodels"]))
    && (Present(f, "maxpayload") ==> f["maxpayload"].Str? || IsInteger(f["maxpayload"]))
  }

  /** Accepted limits have a non-negative integer page size, and any other
      key, `$`-prefixed or not, is rejected. */
  lemma LimitsRules(f: Record, k: string)
    requires k in f && k !in {"pagesize", "maxmodels", "maxpayload"}
    ensures !LimitsOk(Obj(f))
    ensures LimitsOk(Obj(f - {k})) && Present(f, "pagesize") ==> IsNonNegativeInteger(f["pagesize"])
  {
  }

  // ---------------------------------------------------------- attributes

  /** `idAttribute`: a string `type` if any, `validate.required` not
      `false`, and neither `value` nor `readonly`. It is not an object
      schema, but `not: { required }` holds only for objects. */
  predicate IdAttributeOk(v: Value) {
    v.Obj? &&
    var f := v.fields;
    && (Present(f, "type") ==> f["type"] == Str("string"))
    && (Present(f, "validate") && f["validate"].Obj? && Present(f["validate"].fields, "required") ==>
          f["validate"].fields["required"] != Bool(false))
    && !Present(f, "value")
    && !Present(f, "readonly")
  }

  /** `alias`: an attribute name, or an array of them. */
  predicate AliasOk(v: Value) {
    (v.Str? && ValidAttributeName(v.s)) ||
    (v.Arr? && forall i :: 0 <= i < |v.items| ==> v.items[i].Str? && ValidAttributeName(v.items[i].s))
  }

  const AttributeKeys: set<string> := {"alias", "readonly", "value", "validate", "type", "multiple",
    "deprecation_reason", "description", "examples", "default"}

  /** `attribute`, without its `type` and `validate` sub-schemas. */
  predicate AttributeOk(v: Value) {
    v.Obj? &&
    var f := v.fields;
    && KeysAllowed(f, AttributeKeys, true)
    && (Present(f, "alias") ==> AliasOk(f["alias"]))
    && (Present(f, "readonly") ==> ConfigFuncBoolean(f["readonly"]))
    && (Present(f, "multiple") ==> f["multiple"].Bool?)
    && (Present(f, "deprecation_reason") ==> f["deprecation_reason"].Str?)
    && (Present(f, "description") ==> f["description"].Str?)
    && (Present(f, "examples") ==> IsStringArray(f["examples"]))
  }

  /** A collection's `attributes`: at most 50, named by attribute names; the
      `id` attribute is checked by `idAttribute` only, the others by
      `attribute`. */
  predicate AttributesOk(v: Value) {
    v.Obj? &&
    var f := v.fields;
    && |f| <= 50
    && (forall k :: k in f ==> ValidAttributeName(k))
    && (forall k :: k in f && k != "id" ==> AttributeOk(f[k]))
    && (Present(f, "id") ==> IdAttributeOk(f["id"]))
  }

  /** The `id` attribute sets no `value` or `readonly`, keeps a string type
      and cannot be made optional. */
  lemma IdAttributeRules(f: Record)
    requires AttributesOk(Obj(f)) && Present(f, "id")
    ensures f["id"].Obj? && !Present(f["id"].fields, "value") && !Present(f["id"].fields, "readonly")
    ensures Present(f["id"].fields, "type") ==> f["id"].fields["type"] == Str("string")
    ensures Prop(Get(f["id"].fields, "validate"), "required") != Bool(false)
  {
  }

  /** Because `attribute` does not apply to `id`, the `id` attribute may
      carry keys no other attribute may. */
  lemma IdAttributeAllowsAnyKey(g: Record, k: string, x: Value)
    requires IdAttributeOk(Obj(g)) && k !in {"type", "validate", "value", "readonly"}
    ensures IdAttributeOk(Obj(g[k := x]))
  {
    var h := g[k := x];
    assert forall j :: j in {"type", "validate", "value", "readonly"} ==> Get(h, j) == Get(g, j);
  }

  /** More than 50 attributes are rejected. */
  lemma TooManyAttributes(f: Record)
    requires |f| > 50
    ensures !AttributesOk(Obj(f))
  {
  }

  // ---------------------------------------------------------- collections

  const CollectionKeys: set<string> := {"name", "description", "authorize", "database", "attributes"}

  /** `collection` */
  predicate CollectionOk(v: Value) {
    v.Obj? &&
    var f := v.fields;
    && Present(f, "attributes")
    && KeysAllowed(f, CollectionKeys, true)
    && (Present(f, "name") ==> ValidClientCollnames(f["name"]))
    && (Present(f, "description") ==> f["description"].Str?)
    && (Present(f, "authorize") ==> AuthorizeOk(f["authorize"]))
    && (Present(f, "database") ==> f["database"].Str?)
    && AttributesOk(f["attributes"])
  }

  /** `collections`: it has no `type`, so only an object is checked, each
      key a collection name and each value a collection. */
  predicate CollectionsOk(v: Value) {
    v.Obj? ==>
      (forall k :: k in v.fields ==> ValidClientCollname(k)) &&
      (forall k :: k in v.fields ==> CollectionOk(v.fields[k]))
  }

  /** A collection without attributes is rejected. */
  lemma CollectionNeedsAttributes(f: Record)
    requires !Present(f, "attributes")
    ensures !CollectionOk(Obj(f))
  {
  }

  // ------------------------------------------------------------ top level

  const TopLevelKeys: set<string> := {"engine", "name", "env", "collections", "params", "plugins",
    "authorize", "validation", "operators", "log", "protocols", "databases", "limits", "collTypes",
    "customValidationNames"}

  /** The configuration's keys other than `collections` and `limits`. */
  predicate TopLevelOk(f: Record) {
    && (Present(f, "engine") ==> IsNonNegativeInteger(f["engine"]))
    && (Present(f, "name") ==> f["name"].Str?)
    && (Present(f, "env") ==> f["env"] in {Str("dev"), Str("production")})
    && (Present(f, "params") ==> ParamsOk(f["params"]))
    && (Present(f, "plugins") ==> PluginsOk(f["plugins"]))
    && (Present(f, "authorize") ==> AuthorizeOk(f["authorize"]))
    && (Present(f, "validation") ==> ValidationOk(f["validation"]))
    && (Present(f, "operators") ==> PatchOperatorsOk(f["operators"]))
    && (Present(f, "log") ==> LogOk(f["log"]))
    && (Present(f, "protocols") ==> f["protocols"].Obj?)
    && (Present(f, "databases") ==> f["databases"].Obj?)
    && (Present(f, "collTypes") ==> IsStringArray(f["collTypes"]))
    && (Present(f, "customValidationNames") ==> IsStringArray(f["customValidationNames"]))
  }

  /** The whole configuration. */
  predicate ConfigOk(c: Value) {
    c.Obj? &&
    var f := c.fields;
    && Present(f, "engine") && Present(f, "collections")
    && KeysAllowed(f, TopLevelKeys, true)
    && TopLevelOk(f)
    && CollectionsOk(f["collections"])
    && (Present(f, "limits") ==> LimitsOk(f["limits"]))
  }

  /** An accepted configuration has an `engine` version and `collections`,
      and its `env` is `dev` or `production` when set. */
  lemma ConfigRequired(c: Value)
    requires ConfigOk(c)
    ensures Present(c.fields, "engine") && IsNonNegativeInteger(c.fields["engine"])
    ensures Present(c.fields, "collections")
    ensures Present(c.fields, "env") ==> c.fields["env"] == Str("dev") || c.fields["env"] == Str("production")
  {
  }

  /** An unknown key that does not start with `$` is rejected. */
  lemma UnknownKeyRejected(f: Record, k: string)
    requires k in f && k !in TopLevelKeys && !IsUserKey(k)
    ensures !ConfigOk(Obj(f))
  {
  }

  /** A `$`-prefixed key is free: adding one keeps the configuration
      accepted, whatever its value. */
  lemma UserKeyFree(f: Record, k: string, x: Value)
    requires ConfigOk(Obj(f)) && IsUserKey(k)
    ensures ConfigOk(Obj(f[k := x]))
  {
    var g := f[k := x];
    assert k !in TopLevelKeys;
    assert forall j :: j in TopLevelKeys ==> Get(g, j) == Get(f, j);
    assert TopLevelOk(g) by {
      assert forall j :: j != k ==> Get(g, j) == Get(f, j);
    }
  }
}
