/** Checking the nodes of an inline function's syntax tree against the
    rules of its JSL type (src/jsl/validate/validate.js). Parsing, the tree
    walk, `printNode` and the rules themselves are parameters. */
module JslValidate {
  import opened Values
  import opened Outcomes
  import opened Text

  /** `rules[type]`: a function of the node, or any other value (`true`,
      or anything else; a missing key is `undefined`). */
  datatype Rule = RuleFunction(check: Value -> Value) | RuleValue(v: Value)

  function RuleOf(rules: map<string, Rule>, nodeType: string): Rule {
    if nodeType in rules then rules[nodeType] else RuleValue(Undefined)
  }

  predicate RuleTruthy(rule: Rule) {
    rule.RuleFunction? || Truthy(rule.v)
  }

  /** The message of `getThrowError`. */
  function JslMessage(jslText: string, msg: string): string {
    "Invalid inline function: '" + jslText + "'.\n" + msg + ".\nPlease use a normal function instead"
  }

  /** `getThrowError`'s error: the message in its template, with the JSL type. */
  function ThrowError(jslText: string, jslType: string, msg: string): (e: Error)
    ensures e.Jsl? && e.jslType == jslType
    ensures StartsWith(e.message, "Invalid inline function: '" + jslText + "'.\n" + msg + ".\n")
    ensures EndsWith(e.message, ".\nPlease use a normal function instead")
  {
    var head := "Invalid inline function: '" + jslText + "'.\n" + msg + ".\n";
    assert JslMessage(jslText, msg) == head + "Please use a normal function instead";
    assert JslMessage(jslText, msg) == "Invalid inline function: '" + jslText + "'.\n" + msg + ".\nPlease use a normal function instead";
    EndsWithConcat("Invalid inline function: '" + jslText + "'.\n" + msg, ".\nPlease use a normal function instead");
    StartsWithConcat(head, "Please use a normal function instead");
    Jsl(jslType, JslMessage(jslText, msg))
  }

  /** The template gives back the message it embeds: two messages for the
      same inline function give the same text only when they are equal. */
  lemma JslMessageInjective(jslText: string, m1: string, m2: string)
    requires JslMessage(jslText, m1) == JslMessage(jslText, m2)
    ensures m1 == m2
  {
    var pre := "Invalid inline function: '" + jslText + "'.\n";
    var post := ".\nPlease use a normal function instead";
    assert JslMessage(jslText, m1) == pre + m1 + post;
    assert JslMessage(jslText, m2) == pre + m2 + post;
    assert |m1| == |m2|;
    assert m1 == (pre + m1 + post)[|pre|..|pre| + |m1|];
    assert m2 == (pre + m2 + post)[|pre|..|pre| + |m2|];
  }

  function CannotUse(printed: string): string {
    "Cannot use the following node: '" + printed + "'"
  }

  const RuleNotAFunction := Plain("rule is not a function")

  /** `validateNode`: the error thrown for one node, `Pass` when it is
      allowed. */
  function ValidateNode(jslText: string, jslType: string, rules: map<string, Rule>, nodeType: string, node: Value,
                        printNode: Value -> string): (o: Outcome)
    ensures !RuleTruthy(RuleOf(rules, nodeType)) ==> o == Fail(ThrowError(jslText, jslType, CannotUse(printNode(node))))
    ensures RuleOf(rules, nodeType) == RuleValue(Bool(true)) ==> o == Pass
    ensures forall f :: RuleOf(rules, nodeType) == RuleFunction(f) ==>
      o == (if f(node).Str? then Fail(ThrowError(jslText, jslType, f(node).s)) else Pass)
    ensures RuleOf(rules, nodeType).RuleValue? && Truthy(RuleOf(rules, nodeType).v) && RuleOf(rules, nodeType).v != Bool(true) ==>
      o == Fail(RuleNotAFunction)
  {
    var rule := RuleOf(rules, nodeType);
    if !RuleTruthy(rule) then Fail(ThrowError(jslText, jslType, CannotUse(printNode(node))))
    else match rule
      case RuleValue(v) => if v == Bool(true) then Pass else Fail(RuleNotAFunction)
      case RuleFunction(f) =>
        var message := f(node);
        if message.Str? then Fail(ThrowError(jslText, jslType, message.s)) else Pass
  }

  /** Whatever a rule function rejects is reported: even an empty string
      message throws, though it is falsy. */
  lemma EmptyMessageRejects(jslText: string, jslType: string, rules: map<string, Rule>, nodeType: string, node: Value,
                            printNode: Value -> string)
    requires nodeType in rules && rules[nodeType].RuleFunction? && rules[nodeType].check(node) == Str("")
    ensures ValidateNode(jslText, jslType, rules, nodeType, node, printNode) == Fail(ThrowError(jslText, jslType, ""))
  {
  }

  /** `validateJsl` over the nodes in the order the walk visits them: the
      first rejected node's error. */
  function ValidateNodes(jslText: string, jslType: string, rules: map<string, Rule>, nodes: seq<(string, Value)>,
                         printNode: Value -> string): (o: Outcome)
    ensures o == Pass <==> forall i :: 0 <= i < |nodes| ==>
      ValidateNode(jslText, jslType, rules, nodes[i].0, nodes[i].1, printNode) == Pass
    ensures o.Fail? ==> exists i :: (0 <= i < |nodes| &&
      (forall j :: 0 <= j < i ==> ValidateNode(jslText, jslType, rules, nodes[j].0, nodes[j].1, printNode) == Pass) &&
      ValidateNode(jslText, jslType, rules, nodes[i].0, nodes[i].1, printNode) == o)
  {
    if nodes == [] then Pass
    else
      var first := ValidateNode(jslText, jslType, rules, nodes[0].0, nodes[0].1, printNode);
      if first.Fail? then first
      else
        var rest := ValidateNodes(jslText, jslType, rules, nodes[1..], printNode);
        assert forall i :: 1 <= i < |nodes| ==> nodes[i] == nodes[1..][i - 1];
        if rest.Fail? then
          var i :| 0 <= i < |nodes[1..]| &&
            (forall j :: 0 <= j < i ==> ValidateNode(jslText, jslType, rules, nodes[1..][j].0, nodes[1..][j].1, printNode) == Pass) &&
            ValidateNode(jslText, jslType, rules, nodes[1..][i].0, nodes[1..][i].1, printNode) == rest;
          assert forall j :: 0 <= j < i + 1 ==> ValidateNode(jslText, jslType, rules, nodes[j].0, nodes[j].1, printNode) == Pass;
          rest
        else Pass
  }
}
