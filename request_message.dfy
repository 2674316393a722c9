/** The message of `request` events in the console log
    (src/log/adapters/console/request_message.js):
    `STATUS [ERROR] - PROTOCOL METHOD RPC /PATH COMMAND...`. The protocol's
    title (`getProtocol`), the title of an RPC system (`getRpc`) and
    JavaScript's conversion of a non-string value to text are parameters. */
module RequestMessage {
  import opened Values
  import opened Outcomes
  import opened Text

  /** A value as `join` and template literals write it. */
  function Show(toText: Value -> string, v: Value): string {
    if v.Str? then v.s else toText(v)
  }

  /** `.map(String)`, with `Show`. */
  function Shown(toText: Value -> string, vs: seq<Value>): (r: seq<string>)
    ensures |r| == |vs|
    ensures forall i :: 0 <= i < |vs| ==> r[i] == Show(toText, vs[i])
  {
    if vs == [] then [] else [Show(toText, vs[0])] + Shown(toText, vs[1..])
  }

  /** `.filter(Boolean)` */
  function Kept(vs: seq<Value>): (r: seq<Value>)
    ensures |r| <= |vs|
    ensures forall v :: v in r <==> v in vs && Truthy(v)
  {
    if vs == [] then []
    else
      assert forall v :: v in vs <==> v == vs[0] || v in vs[1..];
      if Truthy(vs[0]) then [vs[0]] + Kept(vs[1..]) else Kept(vs[1..])
  }

  lemma {:induction false} KeptConcat(a: seq<Value>, b: seq<Value>)
    ensures Kept(a + b) == Kept(a) + Kept(b)
  {
    if a == [] {
      assert a + b == b;
    } else {
      assert (a + b)[0] == a[0];
      assert (a + b)[1..] == a[1..] + b;
      KeptConcat(a[1..], b);
    }
  }

  lemma {:induction false} ShownConcat(toText: Value -> string, a: seq<Value>, b: seq<Value>)
    ensures Shown(toText, a + b) == Shown(toText, a) + Shown(toText, b)
  {
    if a == [] {
      assert a + b == b;
    } else {
      assert (a + b)[0] == a[0];
      assert (a + b)[1..] == a[1..] + b;
      ShownConcat(toText, a[1..], b);
    }
  }

  /** `getSuffixText`: the summary of a success, otherwise the command path
      with the error's description if it has one. */
  function SuffixText(toText: Value -> string, status: Value, summary: Value, commandpath: Value, description: Value): (r: Value)
    ensures status == Str("SUCCESS") ==> r == summary
    ensures status != Str("SUCCESS") && !Truthy(description) ==> r == commandpath
    ensures status != Str("SUCCESS") && Truthy(description) ==>
      r.Str? && r.s == Show(toText, commandpath) + " - " + Show(toText, description)
  {
    if status == Str("SUCCESS") then summary
    else if !Truthy(description) then commandpath
    else Str(Show(toText, commandpath) + " - " + Show(toText, description))
  }

  /** `getRpcTitle` */
  function RpcTitle(rpcTitleOf: Value -> Value, rpc: Value): (r: Value)
    ensures rpc == Undefined ==> r == Undefined
    ensures rpc != Undefined ==> r == rpcTitleOf(rpc)
  {
    if rpc == Undefined then Undefined else rpcTitleOf(rpc)
  }

  /** `error` is destructured: `null` throws. */
  const ErrorNull := Plain("Cannot destructure property 'status' of 'error'")

  /** `commandpath` defaults to `''`, the error's `status` to `SUCCESS` and
      its `description` to `''`. */
  function Default(v: Value, d: Value): Value {
    if v == Undefined then d else v
  }

  /** The seven parts of the message, before the falsy ones are dropped. */
  function Parts(mInput: Record, protocolTitle: Value, rpcTitleOf: Value -> Value, toText: Value -> string): seq<Value> {
    var error := Get(mInput, "error");
    var status := Default(Prop(error, "status"), Str("SUCCESS"));
    var description := Default(Prop(error, "description"), Str(""));
    var commandpath := Default(Get(mInput, "commandpath"), Str(""));
    [status, Str("-"), protocolTitle, Get(mInput, "method"), RpcTitle(rpcTitleOf, Get(mInput, "rpc")),
     Get(mInput, "path"), SuffixText(toText, status, Get(mInput, "summary"), commandpath, description)]
  }

  /** The truthy parts, joined by spaces. */
  function Message(toText: Value -> string, ps: seq<Value>): string {
    Join(Shown(toText, Kept(ps)), " ")
  }

  /** `getRequestMessage` */
  function GetRequestMessage(mInput: Record, protocolTitle: Value, rpcTitleOf: Value -> Value, toText: Value -> string):
    (r: Result<string>)
    ensures r.Err? <==> Get(mInput, "error") == Null
    ensures r.Err? ==> r.error == ErrorNull
    ensures r.Ok? ==> r.value == Message(toText, Parts(mInput, protocolTitle, rpcTitleOf, toText))
  {
    if Get(mInput, "error") == Null then Err(ErrorNull)
    else Ok(Message(toText, Parts(mInput, protocolTitle, rpcTitleOf, toText)))
  }

  lemma KeptSnoc(vs: seq<Value>, v: Value)
    requires Truthy(v)
    ensures Kept(vs + [v]) == Kept(vs) + [v]
  {
    KeptConcat(vs, [v]);
    assert Kept([v]) == [v] by {
      assert [v][1..] == [];
    }
  }

  lemma KeptCons(v: Value, vs: seq<Value>)
    requires Truthy(v)
    ensures Kept([v] + vs) == [v] + Kept(vs)
  {
    assert ([v] + vs)[1..] == vs;
  }

  lemma KeptNonEmpty(vs: seq<Value>, i: nat)
    requires i < |vs| && Truthy(vs[i])
    ensures Kept(vs) != []
  {
    assert vs[i] in vs;
  }

  lemma ShownSnoc(toText: Value -> string, vs: seq<Value>, v: Value)
    ensures Shown(toText, vs + [v]) == Shown(toText, vs) + [Show(toText, v)]
  {
    ShownConcat(toText, vs, [v]);
  }

  /** A non-empty string part followed by the dash starts the message. */
  lemma StartsWithFirst(toText: Value -> string, ps: seq<Value>)
    requires |ps| >= 2 && ps[0].Str? && ps[0].s != "" && ps[1] == Str("-")
    ensures StartsWith(Message(toText, ps), ps[0].s + " -")
  {
    var s := ps[0].s;
    assert ps == [ps[0]] + ([ps[1]] + ps[2..]);
    KeptCons(ps[0], [ps[1]] + ps[2..]);
    KeptCons(ps[1], ps[2..]);
    var shown := Shown(toText, Kept(ps));
    assert shown[0] == s && shown[1] == "-";
    var msg := Message(toText, ps);
    assert msg == s + " " + Join(shown[1..], " ");
    assert StartsWith(Join(shown[1..], " "), "-") by {
      assert shown[1..][0] == "-";
    }
    assert msg[..|s + " -"|] == s + " -";
  }

  /** A truthy last part ends the message, after a space, when a truthy part
      precedes it. */
  lemma EndsWithLast(toText: Value -> string, ps: seq<Value>, i: nat)
    requires i < |ps| - 1 && Truthy(ps[i]) && Truthy(ps[|ps| - 1])
    ensures EndsWith(Message(toText, ps), " " + Show(toText, ps[|ps| - 1]))
  {
    var n := |ps| - 1;
    var last := ps[n];
    var front := ps[..n];
    assert ps == front + [last];
    KeptSnoc(front, last);
    KeptNonEmpty(front, i);
    ShownSnoc(toText, Kept(front), last);
    JoinSnoc(Shown(toText, Kept(front)), Show(toText, last), " ");
    EndsWithConcat(Join(Shown(toText, Kept(front)), " "), " " + Show(toText, last));
  }

  /** The status of the request, then a dash, start the message; a request
      without error is a `SUCCESS`. */
  lemma MessageStartsWithStatus(mInput: Record, protocolTitle: Value, rpcTitleOf: Value -> Value, toText: Value -> string)
    requires Get(mInput, "error") != Null
    ensures var status := Default(Prop(Get(mInput, "error"), "status"), Str("SUCCESS"));
      status.Str? && status.s != "" ==>
      StartsWith(GetRequestMessage(mInput, protocolTitle, rpcTitleOf, toText).value, status.s + " -")
    ensures Prop(Get(mInput, "error"), "status") == Undefined ==>
      StartsWith(GetRequestMessage(mInput, protocolTitle, rpcTitleOf, toText).value, "SUCCESS -")
  {
    var ps := Parts(mInput, protocolTitle, rpcTitleOf, toText);
    if ps[0].Str? && ps[0].s != "" {
      StartsWithFirst(toText, ps);
    }
  }

  /** The last part is the suffix: it ends the message whenever it is
      truthy. */
  lemma MessageEndsWithSuffix(mInput: Record, protocolTitle: Value, rpcTitleOf: Value -> Value, toText: Value -> string)
    requires Get(mInput, "error") != Null
    ensures var ps := Parts(mInput, protocolTitle, rpcTitleOf, toText);
      Truthy(ps[6]) ==>
      EndsWith(GetRequestMessage(mInput, protocolTitle, rpcTitleOf, toText).value, " " + Show(toText, ps[6]))
  {
    var ps := Parts(mInput, protocolTitle, rpcTitleOf, toText);
    if Truthy(ps[6]) {
      EndsWithLast(toText, ps, 1);
    }
  }

  /** A failed request with a description ends with the command path and the
      description. */
  lemma FailureEndsWithDescription(mInput: Record, protocolTitle: Value, rpcTitleOf: Value -> Value, toText: Value -> string)
    requires Get(mInput, "error").Obj?
    requires Prop(Get(mInput, "error"), "status").Str? && Prop(Get(mInput, "error"), "status") != Str("SUCCESS")
    requires Truthy(Prop(Get(mInput, "error"), "description"))
    ensures EndsWith(GetRequestMessage(mInput, protocolTitle, rpcTitleOf, toText).value,
      " " + Show(toText, Default(Get(mInput, "commandpath"), Str(""))) + " - " +
      Show(toText, Prop(Get(mInput, "error"), "description")))
  {
    var ps := Parts(mInput, protocolTitle, rpcTitleOf, toText);
    EndsWithLast(toText, ps, 1);
    assert " " + Show(toText, ps[6]) == " " + Show(toText, Default(Get(mInput, "commandpath"), Str(""))) + " - " +
      Show(toText, Prop(Get(mInput, "error"), "description"));
  }
}
