/** Choosing the interface (GraphQL, GraphiQL, GraphQL printer) from the
    route (src/middleware/interface_negotiator/index.js). The negotiator
    writes its choice into the request's `info` object in place; the next
    layer is a parameter. */
module InterfaceNegotiator {
  import opened Values
  import opened Outcomes

  /** The keys of `interfaces`, in declaration order. */
  const InterfaceNames: seq<string> := ["graphql", "graphiql", "graphqlprint"]

  /** `findKey(interfaces, test => test({ route }))`: each test compares the
      route with its own name. */
  function FindInterface(route: Value): (r: Option<string>)
    ensures r.Some? <==> route.Str? && route.s in InterfaceNames
    ensures r.Some? ==> r.value == route.s
  {
    if route == Str("graphql") then Some("graphql")
    else if route == Str("graphiql") then Some("graphiql")
    else if route == Str("graphqlprint") then Some("graphqlprint")
    else None
  }

  /** `${route}`: a string route as it is; any other value through
      JavaScript's string conversion, a parameter. */
  function RouteText(toText: Value -> string, route: Value): (t: string)
    ensures route.Str? ==> t == route.s
    ensures !route.Str? ==> t == toText(route)
  {
    if route.Str? then route.s else toText(route)
  }

  function UnsupportedInterface(toText: Value -> string, route: Value): Error {
    Engine("UNSUPPORTED_INTERFACE", "Unsupported interface: " + RouteText(toText, route))
  }

  /** A snapshot of `info`, as the next layer sees it. */
  datatype InfoState = InfoState(interfaceName: Value, rest: Record)

  /** The `info` object of a request: `interface` and the other fields. */
  class Info {
    var interfaceName: Value
    var rest: Record

    constructor (rest: Record)
      ensures interfaceName == Undefined && this.rest == rest
    {
      interfaceName := Undefined;
      this.rest := rest;
    }

    function State(): InfoState
      reads this
    {
      InfoState(interfaceName, rest)
    }
  }

  /** `interfaceNegotiation`: the stored interface, read back. */
  function InterfaceNegotiation(info: InfoState): Value {
    info.interfaceName
  }

  /** `interfaceNegotiator`: an unknown route throws before anything is
      written or the next layer runs; otherwise `info.interface` is set and
      the next layer's response returned unchanged. */
  method Negotiate(info: Info, route: Value, next: InfoState -> Value, toText: Value -> string) returns (r: Result<Value>)
    modifies info
    ensures FindInterface(route).None? ==> r == Err(UnsupportedInterface(toText, route)) && info.State() == old(info.State())
    ensures FindInterface(route).Some? ==>
      && info.interfaceName == Str(FindInterface(route).value)
      && info.rest == old(info.rest)
      && r == Ok(next(info.State()))
    ensures r.Ok? ==> InterfaceNegotiation(info.State()) == route
  {
    var found := FindInterface(route);
    if found.None? {
      return Err(UnsupportedInterface(toText, route));
    }
    info.interfaceName := Str(found.value);
    var response := next(info.State());
    return Ok(response);
  }

  /** Each known route selects the interface of the same name. */
  lemma KnownRoutes()
    ensures forall i :: 0 <= i < |InterfaceNames| ==> FindInterface(Str(InterfaceNames[i])) == Some(InterfaceNames[i])
  {
  }
}
