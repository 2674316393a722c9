/** The GraphQL error response (src/rpc/handlers/graphql/response.js):
    `data: null` and a one-element `errors` list in the GraphQL spelling of
    the standard error. */
module GraphqlResponse {
  import opened Values
  import opened Outcomes

  /** The keys `getError` destructures by name. */
  const Named: set<string> := {"type", "title", "description", "details", "protocolstatus"}

  /** The extra fields of `getError`: those not destructured by name,
      without `status`. */
  function ExtraContent(error: Record): (r: Record)
    ensures forall k :: k in r <==> k in error && k !in Named && k != "status"
    ensures forall k :: k in r ==> r[k] == error[k]
  {
    map k | k in error && k !in Named && k != "status" :: error[k]
  }

  /** `getError`'s single error, from a standard error record: the spec's
      `message`, `title`, `type` and `status`, the extra fields over them,
      and `stack` last. */
  function GetError(error: Record): (r: Record)
    ensures forall k :: k in r ==> r[k] != Undefined
    ensures Get(r, "stack") == Get(error, "details")
  {
    var base := map[
      "message" := Get(error, "description"),
      "title" := Get(error, "title"),
      "type" := Get(error, "type"),
      "status" := Get(error, "protocolstatus")];
    Merge(base, ExtraContent(error), map["stack" := Get(error, "details")])
  }

  /** `protocolstatus` is the `status`, and `title` and `type` are kept. */
  lemma GetErrorSpecFields(error: Record)
    ensures Get(GetError(error), "status") == Get(error, "protocolstatus")
    ensures Get(GetError(error), "title") == Get(error, "title")
    ensures Get(GetError(error), "type") == Get(error, "type")
  {
  }

  /** `description` is the `message` unless an extra field overrides it. */
  lemma GetErrorMessage(error: Record)
    ensures "message" !in error ==> Get(GetError(error), "message") == Get(error, "description")
    ensures "message" in error ==> Get(GetError(error), "message") == error["message"]
  {
  }

  /** Every extra field but `status` and `stack` is kept. */
  lemma GetErrorExtra(error: Record)
    ensures forall k :: k in error && k !in Named && k != "status" && k != "stack" ==> Get(GetError(error), k) == error[k]
  {
  }

  /** Nothing else is added. */
  lemma GetErrorKeys(error: Record)
    ensures forall k :: k in GetError(error) ==> k in {"message", "title", "type", "status", "stack"} || (k in error && k !in Named)
  {
  }

  /** `transformError`: fails when the response's content has no error to
      destructure; a primitive error has none of the fields read. */
  function TransformError(content: Value): (r: Result<Record>)
    ensures r.Err? <==> Prop(content, "error") == Undefined || Prop(content, "error") == Null
    ensures r.Ok? ==> r.value.Keys == {"data", "errors"} && r.value["data"] == Null
    ensures r.Ok? ==> r.value["errors"].Arr? && |r.value["errors"].items| == 1
    ensures r.Ok? ==> r.value["errors"].items[0] == Obj(GetError(Fields(Prop(content, "error"))))
  {
    var error := Prop(content, "error");
    if error == Undefined || error == Null then Err(Plain("Cannot destructure 'error'"))
    else Ok(map["data" := Null, "errors" := Arr([Obj(GetError(Fields(error)))])])
  }
}
