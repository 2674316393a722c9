/** Checking that a collection's database supports the features a command
    uses (src/databases/features/runtime.js). `FEATURES`, `getFeatures` and
    the validators are parameters: a validator returns the message of the
    feature it finds in use, `None` standing for `undefined`. */
module RuntimeFeatures {
  import opened Values
  import opened Outcomes
  import opened Text

  type Validator = (seq<string>, Record, Value) -> Option<string>

  /** `difference(FEATURES, features)`: the unsupported features, in
      `FEATURES` order. */
  function Unsupported(allFeatures: seq<string>, features: seq<string>): (r: seq<string>)
    ensures |r| <= |allFeatures|
    ensures forall f :: f in r <==> f in allFeatures && f !in features
  {
    if allFeatures == [] then []
    else
      var rest := Unsupported(allFeatures[1..], features);
      assert forall f :: f in allFeatures <==> f == allFeatures[0] || f in allFeatures[1..];
      if allFeatures[0] in features then rest else [allFeatures[0]] + rest
  }

  /** Index of the first `:` of `s` at or after `from`, or `|s|`. */
  function FirstColon(s: string, from: nat): (i: nat)
    requires from <= |s|
    ensures from <= i <= |s|
    ensures i < |s| ==> s[i] == ':'
    ensures forall j :: from <= j < i ==> s[j] != ':'
    decreases |s| - from
  {
    if from == |s| || s[from] == ':' then from else FirstColon(s, from + 1)
  }

  /** Index of the first line terminator of `s` at or after `from`, or `|s|`. */
  function LineEnd(s: string, from: nat): (i: nat)
    requires from <= |s|
    ensures from <= i <= |s|
    ensures i < |s| ==> IsLineTerminator(s[i])
    ensures forall j :: from <= j < i ==> !IsLineTerminator(s[j])
    decreases |s| - from
  {
    if from == |s| || IsLineTerminator(s[from]) then from else LineEnd(s, from + 1)
  }

  /** `feature.replace(/:.*\/u, '')`: the first `:` and what follows it up
      to the end of its line (`.` does not match a line terminator). */
  function ValidatorName(feature: string): string {
    var i := FirstColon(feature, 0);
    feature[..i] + feature[LineEnd(feature, i)..]
  }

  /** Features are single-line, so the validator name is what precedes the
      first `:`, or the whole feature when it has none. */
  lemma ValidatorNameIsPrefix(feature: string)
    requires forall j :: 0 <= j < |feature| ==> !IsLineTerminator(feature[j])
    ensures ':' !in ValidatorName(feature)
    ensures feature == ValidatorName(feature) + feature[|ValidatorName(feature)|..]
    ensures |ValidatorName(feature)| < |feature| ==> feature[|ValidatorName(feature)|] == ':'
  {
    var i := FirstColon(feature, 0);
    assert LineEnd(feature, i) == |feature|;
    assert ValidatorName(feature) == feature[..i];
  }

  const NotAFunction := Plain("validator is not a function")

  /** `checkFeature` for each unsupported feature, then the messages that
      are not `undefined`, in order. A feature without a validator calls
      `undefined`, which throws. */
  function Messages(unsupported: seq<string>, validators: map<string, Validator>,
                    features: seq<string>, args: Record, filterFeatures: Value): (r: Result<seq<string>>)
    ensures r.Err? <==> exists i :: 0 <= i < |unsupported| && ValidatorName(unsupported[i]) !in validators
    ensures r.Err? ==> r.error == NotAFunction
  {
    if unsupported == [] then Ok([])
    else
      var name := ValidatorName(unsupported[0]);
      var rest := Messages(unsupported[1..], validators, features, args, filterFeatures);
      assert forall i :: 1 <= i < |unsupported| ==> unsupported[i] == unsupported[1..][i - 1];
      if name !in validators then Err(NotAFunction)
      else match rest
        case Err(e) => Err(e)
        case Ok(ms) =>
          match validators[name](features, args, filterFeatures)
          case None => Ok(ms)
          case Some(m) => Ok([m] + ms)
  }

  /** The first message is the one of the first unsupported feature whose
      validator returns one. */
  lemma {:induction false} FirstMessage(unsupported: seq<string>, validators: map<string, Validator>,
                                        features: seq<string>, args: Record, filterFeatures: Value)
    requires Messages(unsupported, validators, features, args, filterFeatures).Ok?
    ensures var ms := Messages(unsupported, validators, features, args, filterFeatures).value;
      && (ms == [] <==> forall i :: 0 <= i < |unsupported| ==>
            validators[ValidatorName(unsupported[i])](features, args, filterFeatures).None?)
      && (ms != [] ==> exists i :: (0 <= i < |unsupported| &&
            (forall j :: 0 <= j < i ==> validators[ValidatorName(unsupported[j])](features, args, filterFeatures).None?) &&
            validators[ValidatorName(unsupported[i])](features, args, filterFeatures) == Some(ms[0])))
  {
    if unsupported != [] {
      var tail := unsupported[1..];
      assert forall i :: 1 <= i < |unsupported| ==> unsupported[i] == tail[i - 1];
      FirstMessage(tail, validators, features, args, filterFeatures);
      var v := validators[ValidatorName(unsupported[0])](features, args, filterFeatures);
      var ms := Messages(unsupported, validators, features, args, filterFeatures).value;
      if v.None? && ms != [] {
        var i :| 0 <= i < |tail| &&
          (forall j :: 0 <= j < i ==> validators[ValidatorName(tail[j])](features, args, filterFeatures).None?) &&
          validators[ValidatorName(tail[i])](features, args, filterFeatures) == Some(ms[0]);
        assert forall j :: 0 <= j < i + 1 ==> validators[ValidatorName(unsupported[j])](features, args, filterFeatures).None?;
      }
    }
  }

  /** `getErrorMessage`: the first message, `None` when there is none. */
  function GetErrorMessage(allFeatures: seq<string>, validators: map<string, Validator>,
                           features: seq<string>, args: Record, filterFeatures: Value): Result<Option<string>> {
    match Messages(Unsupported(allFeatures, features), validators, features, args, filterFeatures)
    case Err(e) => Err(e)
    case Ok(ms) => Ok(if ms == [] then None else Some(ms[0]))
  }

  function NotSupported(message: string, clientCollname: string): Error {
    Plain(message + " because the collection '" + clientCollname + "' does not support it")
  }

  /** `validateRuntimeFeatures`: the error thrown, `None` when it returns. */
  function ValidateRuntimeFeatures(allFeatures: seq<string>, validators: map<string, Validator>, features: seq<string>,
                                   args: Record, clientCollname: string, filterFeatures: Value): (r: Option<Error>)
    ensures r.None? <==> GetErrorMessage(allFeatures, validators, features, args, filterFeatures) == Ok(None)
    ensures forall m :: GetErrorMessage(allFeatures, validators, features, args, filterFeatures) == Ok(Some(m)) ==>
      r == Some(NotSupported(m, clientCollname))
    ensures forall e :: GetErrorMessage(allFeatures, validators, features, args, filterFeatures) == Err(e) ==> r == Some(e)
  {
    match GetErrorMessage(allFeatures, validators, features, args, filterFeatures)
    case Err(e) => Some(e)
    case Ok(None) => None
    case Ok(Some(m)) => Some(NotSupported(m, clientCollname))
  }

  /** A database supporting every feature never fails, whatever the
      validators. */
  lemma AllSupportedPasses(allFeatures: seq<string>, validators: map<string, Validator>, features: seq<string>,
                           args: Record, clientCollname: string, filterFeatures: Value)
    requires forall i :: 0 <= i < |allFeatures| ==> allFeatures[i] in features
    ensures ValidateRuntimeFeatures(allFeatures, validators, features, args, clientCollname, filterFeatures) == None
  {
    NothingUnsupported(allFeatures, features);
  }

  lemma {:induction false} NothingUnsupported(allFeatures: seq<string>, features: seq<string>)
    requires forall i :: 0 <= i < |allFeatures| ==> allFeatures[i] in features
    ensures Unsupported(allFeatures, features) == []
  {
    if allFeatures != [] {
      assert forall i :: 0 <= i < |allFeatures[1..]| ==> allFeatures[1..][i] == allFeatures[i + 1];
      NothingUnsupported(allFeatures[1..], features);
    }
  }

  /** Only the validators of unsupported features matter. */
  lemma {:induction false} OnlyUnsupportedChecked(unsupported: seq<string>, v1: map<string, Validator>, v2: map<string, Validator>,
                                                  features: seq<string>, args: Record, filterFeatures: Value)
    requires forall i :: 0 <= i < |unsupported| ==>
      var n := ValidatorName(unsupported[i]);
      (n in v1 <==> n in v2) && (n in v1 ==> v1[n](features, args, filterFeatures) == v2[n](features, args, filterFeatures))
    ensures Messages(unsupported, v1, features, args, filterFeatures) == Messages(unsupported, v2, features, args, filterFeatures)
  {
    if unsupported != [] {
      assert forall i :: 1 <= i < |unsupported| ==> unsupported[i] == unsupported[1..][i - 1];
      OnlyUnsupportedChecked(unsupported[1..], v1, v2, features, args, filterFeatures);
    }
  }

  /** The reported message is that of the first unsupported feature, in
      `FEATURES` order, whose validator gives one. */
  lemma ReportsFirstMessage(allFeatures: seq<string>, validators: map<string, Validator>, features: seq<string>,
                            args: Record, clientCollname: string, filterFeatures: Value)
    requires GetErrorMessage(allFeatures, validators, features, args, filterFeatures).Ok?
    ensures var u := Unsupported(allFeatures, features);
      var r := ValidateRuntimeFeatures(allFeatures, validators, features, args, clientCollname, filterFeatures);
      && (r.None? <==> forall i :: 0 <= i < |u| ==> validators[ValidatorName(u[i])](features, args, filterFeatures).None?)
      && (r.Some? ==> exists i, m :: (0 <= i < |u| &&
            (forall j :: 0 <= j < i ==> validators[ValidatorName(u[j])](features, args, filterFeatures).None?) &&
            validators[ValidatorName(u[i])](features, args, filterFeatures) == Some(m) &&
            r == Some(NotSupported(m, clientCollname))))
  {
    var u := Unsupported(allFeatures, features);
    FirstMessage(u, validators, features, args, filterFeatures);
    var ms := Messages(u, validators, features, args, filterFeatures).value;
    assert GetErrorMessage(allFeatures, validators, features, args, filterFeatures) == Ok(if ms == [] then None else Some(ms[0]));
  }
}
