/** Validation of the pagination arguments `before`, `after`, `page_size`
    and `page` (src/middleware/pagination/validation/input.js).
    Which schema applies depends on `allowFullPagination` and
    `mustPaginateOutput`, whose answers are parameters; the token decoder
    is a parameter too (`None` when it throws), and so is the JSON-schema
    engine's final verdict, which this model replaces by predicates. */
module PaginationInput {
  import opened Values
  import opened Outcomes

  /** The three schemas the arguments can be validated against. */
  datatype Schema =
    | Full(orderBy: Value, filter: Value, maxPageSize: real)
    | Limited(maxPageSize: real)
    | Restricted

  /** The schema choice of `validatePaginationInput`. */
  function ChooseSchema(allowFull: bool, mustPaginate: bool, args: Record, maxPageSize: real): (s: Schema)
    ensures allowFull <==> s.Full?
    ensures s.Full? ==> s == Full(Get(args, "orderBy"), Get(args, "filter"), maxPageSize)
    ensures !allowFull && mustPaginate <==> s == Limited(maxPageSize)
    ensures !allowFull && !mustPaginate <==> s == Restricted
  {
    if allowFull then Full(Get(args, "orderBy"), Get(args, "filter"), maxPageSize)
    else if mustPaginate then Limited(maxPageSize)
    else Restricted
  }

  // ------------------------------------------------------------ the schemas

  /** `page_size`: an integer in [0, maxPageSize], when given. */
  predicate PageSizeOk(data: Record, maxPageSize: real) {
    Present(data, "page_size") ==>
      IsInteger(data["page_size"]) && 0.0 <= data["page_size"].n <= maxPageSize
  }

  /** `page`: an integer of at least 1, when given. */
  predicate PageOk(data: Record) {
    Present(data, "page") ==> IsInteger(data["page"]) && data["page"].n >= 1.0
  }

  /** An `orderBy` item: `attrName` a string and `order` `asc` or `desc`, when given. */
  predicate OrderByItemOk(item: Value) {
    item.Obj? &&
    (Present(item.fields, "attrName") ==> IsString(item.fields["attrName"])) &&
    (Present(item.fields, "order") ==> item.fields["order"] in {Str("asc"), Str("desc")})
  }

  /** A `const` keyword: skipped when its value is `undefined`. */
  predicate ConstOk(v: Value, expected: Value) {
    expected != Undefined ==> v == expected
  }

  /** A decoded token: the empty string, or an object holding `parts`, the
      same `orderBy` and the same `filter` as the current arguments. */
  predicate TokenOk(token: Value, orderBy: Value, filter: Value) {
    token == Str("") ||
    (token.Obj? &&
     var t := token.fields;
     && Present(t, "orderBy") && Present(t, "filter") && Present(t, "parts")
     && t["parts"].Arr?
     && t["orderBy"].Arr?
     && (forall i :: 0 <= i < |t["orderBy"].items| ==> OrderByItemOk(t["orderBy"].items[i]))
     && ConstOk(t["orderBy"], orderBy)
     && IsString(t["filter"])
     && ConstOk(t["filter"], filter))
  }

  predicate NoneOf(data: Record, keys: set<string>) {
    forall k :: k in keys ==> !Present(data, k)
  }

  /** Whether the (decoded) arguments satisfy the schema. */
  predicate Accepts(schema: Schema, data: Record) {
    match schema
    case Full(orderBy, filter, maxPageSize) =>
      && (Present(data, "before") ==> TokenOk(data["before"], orderBy, filter))
      && (Present(data, "after") ==> TokenOk(data["after"], orderBy, filter))
      && PageSizeOk(data, maxPageSize)
      && PageOk(data)
    case Limited(maxPageSize) =>
      PageSizeOk(data, maxPageSize) && NoneOf(data, {"before", "after", "page"})
    case Restricted =>
      NoneOf(data, {"before", "after", "page", "page_size"})
  }

  /** The schemas are nested: what the restricted schema accepts the limited
      one accepts, and what the limited one accepts the full one accepts. */
  lemma SchemasNested(data: Record, orderBy: Value, filter: Value, maxPageSize: real)
    ensures Accepts(Restricted, data) ==> Accepts(Limited(maxPageSize), data)
    ensures Accepts(Limited(maxPageSize), data) ==> Accepts(Full(orderBy, filter, maxPageSize), data)
  {
    if Accepts(Limited(maxPageSize), data) {
      assert !Present(data, "before") && !Present(data, "after") && !Present(data, "page");
    }
  }

  /** The restricted schema rejects each pagination argument, the limited
      one each of them but `page_size`. */
  lemma SchemasReject(data: Record, k: string, maxPageSize: real)
    requires Present(data, k)
    ensures k in {"before", "after", "page", "page_size"} ==> !Accepts(Restricted, data)
    ensures k in {"before", "after", "page"} ==> !Accepts(Limited(maxPageSize), data)
  {
  }

  // ------------------------------------------------------- token decoding

  const BothDirections := Engine("INPUT_VALIDATION", "wrong parameters: cannot specify both 'before' and 'after'")
  const BothPaginationTypes := Engine("INPUT_VALIDATION", "wrong parameters: cannot use both 'page' and 'before|after'")

  function NotAString(name: string): Error {
    Engine("INPUT_VALIDATION", "wrong parameters: '" + name + "' must be a string")
  }

  function InvalidToken(name: string): Error {
    Engine("INPUT_VALIDATION", "wrong parameters: '" + name + "' is invalid")
  }

  /** One turn of the loop of `getInputData`. */
  function DecodeToken(data: Record, name: string, decode: string -> Option<Value>): Result<Record> {
    var token := Get(data, name);
    if token == Undefined || token == Str("") then Ok(data)
    else if !token.Str? then Err(NotAString(name))
    else match decode(token.s)
      case None => Err(InvalidToken(name))
      case Some(decoded) => Ok(data[name := decoded])
  }

  /** The loop of `getInputData` over `names`, in order. */
  function DecodeTokens(data: Record, names: seq<string>, decode: string -> Option<Value>): Result<Record>
    decreases |names|
  {
    if names == [] then Ok(data)
    else match DecodeTokens(data, names[..|names| - 1], decode)
      case Err(e) => Err(e)
      case Ok(d) => DecodeToken(d, names[|names| - 1], decode)
  }

  const TokenNames := ["before", "after"]

  /** What `getInputData` computes. */
  function InputData(args: Record, decode: string -> Option<Value>): Result<Record> {
    if Present(args, "before") && Present(args, "after") then Err(BothDirections)
    else if Present(args, "page") && (Present(args, "before") || Present(args, "after")) then Err(BothPaginationTypes)
    else DecodeTokens(args, TokenNames, decode)
  }

  /** Once a turn of the loop fails, the loop fails with that error. */
  lemma {:induction false} DecodeErrorPersists(data: Record, names: seq<string>, k: nat, decode: string -> Option<Value>)
    requires k <= |names|
    requires DecodeTokens(data, names[..k], decode).Err?
    ensures DecodeTokens(data, names, decode) == DecodeTokens(data, names[..k], decode)
    decreases |names| - k
  {
    if k < |names| {
      assert names[..k + 1][..k] == names[..k];
      DecodeErrorPersists(data, names, k + 1, decode);
    } else {
      assert names[..k] == names;
    }
  }

  /** `getInputData`: works on a copy of `args` (a value here, so the
      caller's arguments cannot change) and replaces each non-empty token by
      its decoded value. */
  method GetInputData(args: Record, decode: string -> Option<Value>) returns (r: Result<Record>)
    ensures r == InputData(args, decode)
  {
    var inputData := args;
    if Present(inputData, "before") && Present(inputData, "after") {
      return Err(BothDirections);
    }
    if Present(inputData, "page") && (Present(inputData, "before") || Present(inputData, "after")) {
      return Err(BothPaginationTypes);
    }
    var names := TokenNames;
    var i := 0;
    while i < |names|
      invariant 0 <= i <= |names|
      invariant DecodeTokens(args, names[..i], decode) == Ok(inputData)
    {
      var name := names[i];
      assert names[..i + 1][..i] == names[..i];
      var token := Get(inputData, name);
      if token != Undefined && token != Str("") {
        if !token.Str? {
          DecodeErrorPersists(args, names, i + 1, decode);
          return Err(NotAString(name));
        }
        var decoded := decode(token.s);
        if decoded.None? {
          DecodeErrorPersists(args, names, i + 1, decode);
          return Err(InvalidToken(name));
        }
        inputData := inputData[name := decoded.value];
      }
      i := i + 1;
    }
    assert names[..i] == names;
    return Ok(inputData);
  }

  /** Both `before` and `after` given: `INPUT_VALIDATION`. */
  lemma BothDirectionsRejected(args: Record, decode: string -> Option<Value>)
    requires Present(args, "before") && Present(args, "after")
    ensures InputData(args, decode) == Err(BothDirections)
  {
  }

  /** `page` together with `before` or `after`: `INPUT_VALIDATION`. */
  lemma PageWithCursorRejected(args: Record, decode: string -> Option<Value>)
    requires Present(args, "page") && (Present(args, "before") != Present(args, "after"))
    ensures InputData(args, decode) == Err(BothPaginationTypes)
  {
  }

  /** A token that is given, non-empty and not a string is rejected, and
      so is one the decoder cannot read. */
  lemma BadTokenRejected(args: Record, name: string, decode: string -> Option<Value>)
    requires name in TokenNames && Present(args, name) && !Present(args, "page")
    requires !Present(args, if name == "before" then "after" else "before")
    requires args[name] != Str("")
    ensures !args[name].Str? ==> InputData(args, decode) == Err(NotAString(name))
    ensures args[name].Str? && decode(args[name].s).None? ==> InputData(args, decode) == Err(InvalidToken(name))
  {
    assert TokenNames[..1] == ["before"];
    assert ["before"][..0] == [];
    assert DecodeTokens(args, ["before"], decode) == DecodeToken(args, "before", decode);
    if name == "before" {
      if !args[name].Str? || decode(args[name].s).None? {
        DecodeErrorPersists(args, TokenNames, 1, decode);
      }
    } else {
      assert DecodeTokens(args, ["before"], decode) == Ok(args);
    }
  }

  /** On success only the tokens change: an absent or empty token is kept,
      any other is a string and is replaced by what the decoder returns. */
  lemma {:induction false} InputDataSuccess(args: Record, decode: string -> Option<Value>)
    requires InputData(args, decode).Ok?
    ensures var d := InputData(args, decode).value;
      && d.Keys == args.Keys
      && (forall k :: k in args && k !in TokenNames ==> d[k] == args[k])
      && (forall k :: k in TokenNames ==>
            var t := Get(args, k);
            if t == Undefined || t == Str("") then Get(d, k) == t
            else t.Str? && decode(t.s) == Some(d[k]))
  {
    assert TokenNames[..1] == ["before"];
    assert ["before"][..0] == [];
    var d1 := DecodeToken(args, "before", decode);
    assert DecodeTokens(args, ["before"], decode) == d1;
    assert DecodeTokens(args, TokenNames, decode) == DecodeToken(d1.value, "after", decode);
  }

  // ------------------------------------------------------------ the whole

  /** The result of `validatePaginationInput`: nothing, the exception
      `getInputData` throws, or the schema the decoded arguments violate. */
  datatype ValidationOutcome = Valid | Thrown(error: Error) | Invalid(schema: Schema)

  function ValidatePaginationInput(args: Record, allowFull: bool, mustPaginate: bool, maxPageSize: real,
                                   decode: string -> Option<Value>): (o: ValidationOutcome)
    ensures InputData(args, decode).Err? <==> o.Thrown?
    ensures o.Thrown? ==> o.error == InputData(args, decode).error
    ensures o == Valid <==>
      InputData(args, decode).Ok? && Accepts(ChooseSchema(allowFull, mustPaginate, args, maxPageSize), InputData(args, decode).value)
  {
    var schema := ChooseSchema(allowFull, mustPaginate, args, maxPageSize);
    match InputData(args, decode)
    case Err(e) => Thrown(e)
    case Ok(data) => if Accepts(schema, data) then Valid else Invalid(schema)
  }
}
