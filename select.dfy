/** The compiler from a GraphQL selection set to the `select` argument
    (src/operations/handlers/graphql/handler/definition/select.js).
    Each field becomes the entry `a.b.c` (its path) or `a.b.c=alias`, fields
    before their children; fragments add no entry of their own. Entries are
    joined with `,`.
    `applyDirectives` (the `@skip`/`@include` test) is a parameter. A
    fragment's body is not structurally smaller than the spread that names
    it: `depth` bounds how many spreads may be expanded inside each other,
    and running out of it stands for the engine's call-stack overflow. */
module GraphqlSelect {
  import opened Values
  import opened Outcomes
  import opened Text

  datatype Selection =
    | Field(name: string, alias: Option<string>, selectionSet: Option<SelectionSet>)
    | FragmentSpread(name: string)
    | InlineFragment(selectionSet: Option<SelectionSet>)

  datatype SelectionSet = SelectionSet(selections: seq<Selection>)

  /** A named fragment definition of the document. */
  datatype Fragment = Fragment(name: string, selectionSet: Option<SelectionSet>)

  /** `applyDirectives({ selection, variables })`: keep the selection? */
  type Directives = (Selection, Value) -> bool

  const StackOverflow := Plain("Maximum call stack size exceeded")

  const NoFragmentPrefix := "No fragment named "

  function NoFragment(name: string): Error {
    Engine("SYNTAX_VALIDATION", NoFragmentPrefix + name)
  }

  /** `parseSelects`: the entries, joined with `,`. */
  function ParseSelects(selectionSet: Option<SelectionSet>, parentPath: seq<string>, variables: Value,
                        fragments: seq<Fragment>, applyDirectives: Directives, depth: nat): (r: Result<string>)
    ensures var entries := ParseSelectionSet(selectionSet, parentPath, variables, fragments, applyDirectives, depth);
      && (r.Ok? <==> entries.Ok?)
      && (entries.Ok? ==> r.value == Join(entries.value, ","))
      && (entries.Err? ==> r.error == entries.error)
  {
    match ParseSelectionSet(selectionSet, parentPath, variables, fragments, applyDirectives, depth)
    case Ok(entries) => Ok(Join(entries, ","))
    case Err(e) => Err(e)
  }

  /** `parseSelectionSet`: no selection set, no entries. */
  function ParseSelectionSet(selectionSet: Option<SelectionSet>, parentPath: seq<string>, variables: Value,
                             fragments: seq<Fragment>, applyDirectives: Directives, depth: nat): Result<seq<string>>
    decreases depth, selectionSet, 1
  {
    match selectionSet
    case None => Ok([])
    case Some(body) => ParseSelections(body.selections, parentPath, variables, fragments, applyDirectives, depth)
  }

  /** The filter, map and concatenation of `parseSelectionSet`: selections the
      directives reject are skipped, the others' entries are concatenated in
      order, and the first exception stops the walk. */
  function ParseSelections(selections: seq<Selection>, parentPath: seq<string>, variables: Value,
                           fragments: seq<Fragment>, applyDirectives: Directives, depth: nat): Result<seq<string>>
    decreases depth, selections, 0
  {
    if selections == [] then Ok([])
    else if !applyDirectives(selections[0], variables) then
      ParseSelections(selections[1..], parentPath, variables, fragments, applyDirectives, depth)
    else
      match ParseSelection(selections[0], parentPath, fragments, applyDirectives, depth)
      case Err(e) => Err(e)
      case Ok(head) =>
        match ParseSelections(selections[1..], parentPath, variables, fragments, applyDirectives, depth)
        case Err(e) => Err(e)
        case Ok(tail) => Ok(head + tail)
  }

  /** `parseSelection`: dispatch on the node kind. Nested calls receive no
      variables. */
  function ParseSelection(selection: Selection, parentPath: seq<string>,
                          fragments: seq<Fragment>, applyDirectives: Directives, depth: nat): Result<seq<string>>
    decreases depth, selection, 3
  {
    match selection
    case Field(name, alias, selectionSet) =>
      ParseField(name, alias, selectionSet, parentPath, fragments, applyDirectives, depth)
    case FragmentSpread(name) =>
      ParseFragmentSpread(name, parentPath, fragments, applyDirectives, depth)
    case InlineFragment(selectionSet) =>
      ParseInlineFragment(selectionSet, parentPath, fragments, applyDirectives, depth)
  }

  /** `parseField`: the field's own entry, then its children's, whose path is
      extended by the field name. */
  function ParseField(name: string, alias: Option<string>, selectionSet: Option<SelectionSet>,
                      parentPath: seq<string>, fragments: seq<Fragment>,
                      applyDirectives: Directives, depth: nat): Result<seq<string>>
    decreases depth, selectionSet, 2
  {
    var select := GetSelect(parentPath, alias, name);
    match ParseSelectionSet(selectionSet, parentPath + [name], Undefined, fragments, applyDirectives, depth)
    case Err(e) => Err(e)
    case Ok(children) => Ok([select] + children)
  }

  /** `getSelect`: the dotted path, with `=alias` when there is an alias. */
  function GetSelect(parentPath: seq<string>, alias: Option<string>, name: string): string {
    var key := Join(parentPath + [name], ".");
    match alias
    case None => key
    case Some(a) => key + "=" + a
  }

  /** `parseFragmentSpread`: the named fragment's entries, at the same path. */
  function ParseFragmentSpread(name: string, parentPath: seq<string>, fragments: seq<Fragment>,
                               applyDirectives: Directives, depth: nat): Result<seq<string>>
    decreases depth, name, 2
  {
    match FindFragment(fragments, name, 0)
    case None => Err(NoFragment(name))
    case Some(i) =>
      if depth == 0 then Err(StackOverflow)
      else ParseSelectionSet(fragments[i].selectionSet, parentPath, Undefined, fragments, applyDirectives, depth - 1)
  }

  /** `parseInlineFragment`: its entries, at the same path. */
  function ParseInlineFragment(selectionSet: Option<SelectionSet>, parentPath: seq<string>,
                               fragments: seq<Fragment>, applyDirectives: Directives, depth: nat): Result<seq<string>>
    decreases depth, selectionSet, 2
  {
    ParseSelectionSet(selectionSet, parentPath, Undefined, fragments, applyDirectives, depth)
  }

  /** `fragments.find(...)` from index `from`: the first fragment with that name. */
  function FindFragment(fragments: seq<Fragment>, name: string, from: nat): (r: Option<nat>)
    requires from <= |fragments|
    ensures r.Some? ==> from <= r.value < |fragments| && fragments[r.value].name == name
    ensures r.Some? ==> forall j :: from <= j < r.value ==> fragments[j].name != name
    ensures r.None? ==> forall j :: from <= j < |fragments| ==> fragments[j].name != name
    decreases |fragments| - from
  {
    if from == |fragments| then None
    else if fragments[from].name == name then Some(from)
    else FindFragment(fragments, name, from + 1)
  }

  // ---------------------------------------------------------------- properties

  /** The entry of a field is its dotted path, plus `=alias`; under a
      non-empty parent path it extends that path by one segment. */
  lemma GetSelectShape(parentPath: seq<string>, alias: Option<string>, name: string)
    ensures var key := if parentPath == [] then name else Join(parentPath, ".") + "." + name;
      GetSelect(parentPath, alias, name) == (if alias.Some? then key + "=" + alias.value else key)
  {
    if parentPath == [] {
      assert parentPath + [name] == [name];
    } else {
      JoinSnoc(parentPath, name, ".");
    }
  }

  /** Fragment spreads emit nothing themselves: a known fragment contributes
      its body's entries at the spread's own path; an unknown one raises
      `SYNTAX_VALIDATION`. */
  lemma SpreadKeepsPath(name: string, parentPath: seq<string>, fragments: seq<Fragment>,
                        applyDirectives: Directives, depth: nat)
    ensures var r := ParseSelection(FragmentSpread(name), parentPath, fragments, applyDirectives, depth);
      && ((forall j :: 0 <= j < |fragments| ==> fragments[j].name != name) <==> r == Err(NoFragment(name)))
      && (forall i :: (0 <= i < |fragments| && fragments[i].name == name && depth > 0
                       && (forall j :: 0 <= j < i ==> fragments[j].name != name)) ==>
            r == ParseSelectionSet(fragments[i].selectionSet, parentPath, Undefined, fragments, applyDirectives, depth - 1))
  {
    var r := ParseSelection(FragmentSpread(name), parentPath, fragments, applyDirectives, depth);
    match FindFragment(fragments, name, 0)
    case None =>
    case Some(k) =>
      assert r == ParseFragmentSpread(name, parentPath, fragments, applyDirectives, depth);
      if depth > 0 {
        NoSyntaxErrorInBodyOfKnown(fragments[k].selectionSet, parentPath, fragments, applyDirectives, depth - 1, name, k);
      } else {
        assert r == Err(StackOverflow);
      }
  }

  /** A selection set whose walk starts from fragments that all exist never
      reports the missing fragment `name`, which exists at index `k`. */
  lemma NoSyntaxErrorInBodyOfKnown(ss: Option<SelectionSet>, parentPath: seq<string>, fragments: seq<Fragment>,
                                   applyDirectives: Directives, depth: nat, name: string, k: nat)
    requires k < |fragments| && fragments[k].name == name
    ensures ParseSelectionSet(ss, parentPath, Undefined, fragments, applyDirectives, depth) != Err(NoFragment(name))
  {
    NeverMissingKnown(ss, parentPath, Undefined, fragments, applyDirectives, depth, name, k);
  }

  /** The error "no fragment named `name`" cannot arise when that fragment is defined. */
  lemma {:induction false} NeverMissingKnown(ss: Option<SelectionSet>, parentPath: seq<string>, variables: Value,
                                             fragments: seq<Fragment>, applyDirectives: Directives, depth: nat,
                                             name: string, k: nat)
    requires k < |fragments| && fragments[k].name == name
    ensures ParseSelectionSet(ss, parentPath, variables, fragments, applyDirectives, depth) != Err(NoFragment(name))
    decreases depth, ss, 1
  {
    match ss
    case None =>
    case Some(body) => NeverMissingKnownSeq(body.selections, parentPath, variables, fragments, applyDirectives, depth, name, k);
  }

  lemma {:induction false} NeverMissingKnownSeq(sels: seq<Selection>, parentPath: seq<string>, variables: Value,
                                                fragments: seq<Fragment>, applyDirectives: Directives, depth: nat,
                                                name: string, k: nat)
    requires k < |fragments| && fragments[k].name == name
    ensures ParseSelections(sels, parentPath, variables, fragments, applyDirectives, depth) != Err(NoFragment(name))
    decreases depth, sels, 0
  {
    if sels != [] {
      NeverMissingKnownSeq(sels[1..], parentPath, variables, fragments, applyDirectives, depth, name, k);
      if applyDirectives(sels[0], variables) {
        NeverMissingKnownSel(sels[0], parentPath, fragments, applyDirectives, depth, name, k);
      }
    }
  }

  lemma {:induction false} NeverMissingKnownSel(sel: Selection, parentPath: seq<string>,
                                                fragments: seq<Fragment>, applyDirectives: Directives, depth: nat,
                                                name: string, k: nat)
    requires k < |fragments| && fragments[k].name == name
    ensures ParseSelection(sel, parentPath, fragments, applyDirectives, depth) != Err(NoFragment(name))
    decreases depth, sel, 3
  {
    match sel
    case Field(n, alias, ss) =>
      NeverMissingKnown(ss, parentPath + [n], Undefined, fragments, applyDirectives, depth, name, k);
    case FragmentSpread(n) =>
      match FindFragment(fragments, n, 0) {
        case None =>
          assert n != name;
          assert NoFragment(n) != NoFragment(name) by {
            assert NoFragment(n).message[|NoFragmentPrefix|..] == n;
            assert NoFragment(name).message[|NoFragmentPrefix|..] == name;
          }
        case Some(i) =>
          if depth > 0 {
            NeverMissingKnown(fragments[i].selectionSet, parentPath, Undefined, fragments, applyDirectives, depth - 1, name, k);
          }
      }
    case InlineFragment(ss) =>
      NeverMissingKnown(ss, parentPath, Undefined, fragments, applyDirectives, depth, name, k);
  }

  /** Sequential composition of two walks: the first exception wins, and
      otherwise the entries are concatenated. */
  function Then(a: Result<seq<string>>, b: Result<seq<string>>): Result<seq<string>> {
    match a
    case Err(e) => Err(e)
    case Ok(x) =>
      match b
      case Err(e) => Err(e)
      case Ok(y) => Ok(x + y)
  }

  /** Entry order follows selection order: the walk of `s1 + s2` is the walk
      of `s1` followed by the walk of `s2`. */
  lemma {:induction false} SelectionsConcat(s1: seq<Selection>, s2: seq<Selection>, parentPath: seq<string>,
                                            variables: Value, fragments: seq<Fragment>,
                                            applyDirectives: Directives, depth: nat)
    ensures ParseSelections(s1 + s2, parentPath, variables, fragments, applyDirectives, depth)
         == Then(ParseSelections(s1, parentPath, variables, fragments, applyDirectives, depth),
                 ParseSelections(s2, parentPath, variables, fragments, applyDirectives, depth))
    decreases s1
  {
    if s1 == [] {
      assert s1 + s2 == s2;
      match ParseSelections(s2, parentPath, variables, fragments, applyDirectives, depth)
      case Err(e) =>
      case Ok(y) => assert [] + y == y;
    } else {
      assert (s1 + s2)[0] == s1[0];
      assert (s1 + s2)[1..] == s1[1..] + s2;
      SelectionsConcat(s1[1..], s2, parentPath, variables, fragments, applyDirectives, depth);
      var rest1 := ParseSelections(s1[1..], parentPath, variables, fragments, applyDirectives, depth);
      var r2 := ParseSelections(s2, parentPath, variables, fragments, applyDirectives, depth);
      if applyDirectives(s1[0], variables) {
        match ParseSelection(s1[0], parentPath, fragments, applyDirectives, depth)
        case Err(e) =>
        case Ok(h) =>
          match rest1
          case Err(e) =>
          case Ok(x) =>
            match r2
            case Err(e) =>
            case Ok(y) => assert h + (x + y) == (h + x) + y;
      }
    }
  }

  /** A selection the directives reject contributes nothing. */
  lemma RejectedContributesNothing(sel: Selection, parentPath: seq<string>, variables: Value,
                                   fragments: seq<Fragment>, applyDirectives: Directives, depth: nat)
    requires !applyDirectives(sel, variables)
    ensures ParseSelections([sel], parentPath, variables, fragments, applyDirectives, depth) == Ok([])
  {
    assert [sel][1..] == [];
  }

  /** Only the top-level selections see `variables`: two variable bindings on
      which the directives agree for each top-level selection give the same
      result. */
  lemma {:induction false} VariablesOnlyAtTopLevel(sels: seq<Selection>, parentPath: seq<string>,
                                                   v1: Value, v2: Value, fragments: seq<Fragment>,
                                                   applyDirectives: Directives, depth: nat)
    requires forall i :: 0 <= i < |sels| ==> applyDirectives(sels[i], v1) == applyDirectives(sels[i], v2)
    ensures ParseSelections(sels, parentPath, v1, fragments, applyDirectives, depth)
         == ParseSelections(sels, parentPath, v2, fragments, applyDirectives, depth)
  {
    if sels != [] {
      assert applyDirectives(sels[0], v1) == applyDirectives(sels[0], v2);
      VariablesOnlyAtTopLevel(sels[1..], parentPath, v1, v2, fragments, applyDirectives, depth);
    }
  }

  /** Below a non-empty parent path every entry starts with that path and a
      dot: children extend the path of the field they are under. */
  predicate AllUnder(entries: seq<string>, parentPath: seq<string>) {
    parentPath != [] ==>
      forall i :: 0 <= i < |entries| ==> StartsWith(entries[i], Join(parentPath, ".") + ".")
  }

  lemma {:induction false} EntriesUnderPath(ss: Option<SelectionSet>, parentPath: seq<string>, variables: Value,
                                            fragments: seq<Fragment>, applyDirectives: Directives, depth: nat)
    ensures var r := ParseSelectionSet(ss, parentPath, variables, fragments, applyDirectives, depth);
      r.Ok? ==> AllUnder(r.value, parentPath)
    decreases depth, ss, 1
  {
    match ss
    case None =>
    case Some(body) => EntriesUnderPathSeq(body.selections, parentPath, variables, fragments, applyDirectives, depth);
  }

  lemma {:induction false} EntriesUnderPathSeq(sels: seq<Selection>, parentPath: seq<string>, variables: Value,
                                               fragments: seq<Fragment>, applyDirectives: Directives, depth: nat)
    ensures var r := ParseSelections(sels, parentPath, variables, fragments, applyDirectives, depth);
      r.Ok? ==> AllUnder(r.value, parentPath)
    decreases depth, sels, 0
  {
    if sels != [] {
      EntriesUnderPathSeq(sels[1..], parentPath, variables, fragments, applyDirectives, depth);
      if applyDirectives(sels[0], variables) {
        EntriesUnderPathSel(sels[0], parentPath, fragments, applyDirectives, depth);
      }
    }
  }

  lemma {:induction false} EntriesUnderPathSel(sel: Selection, parentPath: seq<string>,
                                               fragments: seq<Fragment>, applyDirectives: Directives, depth: nat)
    ensures var r := ParseSelection(sel, parentPath, fragments, applyDirectives, depth);
      r.Ok? ==> AllUnder(r.value, parentPath)
    decreases depth, sel, 3
  {
    match sel
    case Field(n, alias, ss) =>
      FieldEntries(n, alias, ss, parentPath, fragments, applyDirectives, depth);
    case FragmentSpread(n) =>
      match FindFragment(fragments, n, 0) {
        case None =>
        case Some(i) =>
          if depth > 0 {
            EntriesUnderPath(fragments[i].selectionSet, parentPath, Undefined, fragments, applyDirectives, depth - 1);
          }
      }
    case InlineFragment(ss) =>
      EntriesUnderPath(ss, parentPath, Undefined, fragments, applyDirectives, depth);
  }

  /** A field's own entry comes first, and every later entry (its
      descendants') starts with the field's path, by name and never by
      alias, followed by a dot. */
  lemma {:induction false} FieldEntries(name: string, alias: Option<string>, ss: Option<SelectionSet>,
                                        parentPath: seq<string>, fragments: seq<Fragment>,
                                        applyDirectives: Directives, depth: nat)
    ensures var r := ParseField(name, alias, ss, parentPath, fragments, applyDirectives, depth);
      && (r.Ok? ==> |r.value| >= 1 && r.value[0] == GetSelect(parentPath, alias, name))
      && (r.Ok? ==> forall i :: 1 <= i < |r.value| ==>
                      StartsWith(r.value[i], Join(parentPath + [name], ".") + "."))
      && (r.Ok? ==> AllUnder(r.value, parentPath))
    decreases depth, ss, 2
  {
    var r := ParseField(name, alias, ss, parentPath, fragments, applyDirectives, depth);
    var path := parentPath + [name];
    EntriesUnderPath(ss, path, Undefined, fragments, applyDirectives, depth);
    if r.Ok? && parentPath != [] {
      var outer := Join(parentPath, ".") + ".";
      var inner := Join(path, ".") + ".";
      JoinSnoc(parentPath, name, ".");
      assert inner == outer + (name + ".");
      StartsWithConcat(outer, name + ".");
      GetSelectShape(parentPath, alias, name);
      var own := r.value[0];
      assert own == outer + (name + (if alias.Some? then "=" + alias.value else ""));
      StartsWithConcat(outer, name + (if alias.Some? then "=" + alias.value else ""));
      forall i | 0 <= i < |r.value|
        ensures StartsWith(r.value[i], outer)
      {
        if i > 0 {
          StartsWithTrans(r.value[i], inner, outer);
        }
      }
    }
  }
}
