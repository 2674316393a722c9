/** The database adapter of each model (src/run/database/map.js). The models
    are taken in the order `mapValues` visits them; `getWordsList` is a
    parameter. */
module DatabaseMap {
  import opened Outcomes

  /** A database adapter: its `type` and its `models` option. */
  datatype Adapter = Adapter(adapterType: string, models: seq<string>)

  /** `adapters.filter(({ models }) => models.includes(name))` */
  function Listing(adapters: seq<Adapter>, name: string): (r: seq<Adapter>)
    ensures |r| <= |adapters|
    ensures forall a :: a in r <==> a in adapters && name in a.models
  {
    if adapters == [] then []
    else
      var rest := Listing(adapters[1..], name);
      assert forall a :: a in adapters <==> a == adapters[0] || a in adapters[1..];
      if name in adapters[0].models then [adapters[0]] + rest else rest
  }

  const AnyModel := "..."

  /** The `db.TYPE.models` options of the conflicting adapters. */
  function Options(adapters: seq<Adapter>): (r: seq<string>)
    ensures |r| == |adapters|
    ensures forall i :: 0 <= i < |r| ==> r[i] == "db." + adapters[i].adapterType + ".models"
  {
    if adapters == [] then [] else ["db." + adapters[0].adapterType + ".models"] + Options(adapters[1..])
  }

  function TargetedTwice(adapters: seq<Adapter>, modelName: string, wordsList: seq<string> -> string): Error {
    Engine("CONF_VALIDATION", "Invalid options: " + wordsList(Options(adapters)) + ". They all target the model '"
      + modelName + "' but each model must be targeted by only a single database")
  }

  function NoDatabase(modelName: string): Error {
    Engine("CONF_VALIDATION", "Invalid option 'db': model '" + modelName + "' does have any matching database")
  }

  function SeveralRest(adapters: seq<Adapter>, wordsList: seq<string> -> string): Error {
    Engine("CONF_VALIDATION", "Invalid options: " + wordsList(Options(adapters)) + ". They cannot both include the '...' value")
  }

  /** `validateAdapters`: more than one adapter lists the model. */
  function ValidateAdapters(adapters: seq<Adapter>, modelName: string, wordsList: seq<string> -> string): (r: Option<Error>)
    ensures r.Some? <==> |adapters| > 1
    ensures r.Some? ==> r.value == TargetedTwice(adapters, modelName, wordsList)
  {
    if |adapters| > 1 then Some(TargetedTwice(adapters, modelName, wordsList)) else None
  }

  /** `validateRestAdapters`: exactly one adapter must list `'...'`. */
  function ValidateRestAdapters(adapters: seq<Adapter>, modelName: string, wordsList: seq<string> -> string): (r: Option<Error>)
    ensures r.None? <==> |adapters| == 1
    ensures |adapters| == 0 ==> r == Some(NoDatabase(modelName))
    ensures |adapters| > 1 ==> r == Some(SeveralRest(adapters, wordsList))
  {
    if |adapters| == 0 then Some(NoDatabase(modelName))
    else if |adapters| > 1 then Some(SeveralRest(adapters, wordsList))
    else None
  }

  /** `findAdapter` */
  function FindAdapter(adapters: seq<Adapter>, modelName: string, wordsList: seq<string> -> string): (r: Result<Adapter>)
    ensures r.Ok? ==> r.value in adapters
    ensures r.Ok? && |adapters| != 1 ==> modelName in r.value.models || AnyModel in r.value.models
    ensures r.Err? ==> r.error.Engine? && r.error.reason == "CONF_VALIDATION"
  {
    if |adapters| == 1 then Ok(adapters[0])
    else
      var listing := Listing(adapters, modelName);
      if |listing| == 1 then Ok(listing[0])
      else match ValidateAdapters(listing, modelName, wordsList)
        case Some(e) => Err(e)
        case None =>
          var rest := Listing(adapters, AnyModel);
          match ValidateRestAdapters(rest, modelName, wordsList)
          case Some(e) => Err(e)
          case None => Ok(rest[0])
  }

  /** With a single adapter, it serves every model, listed or not. */
  lemma SingleAdapterServesAll(adapter: Adapter, modelName: string, wordsList: seq<string> -> string)
    ensures FindAdapter([adapter], modelName, wordsList) == Ok(adapter)
  {
  }

  /** Only entry `i` lists the model: the listing is that entry alone. */
  lemma {:induction false} ListingOfOne(adapters: seq<Adapter>, i: nat, name: string)
    requires i < |adapters| && name in adapters[i].models
    requires forall j :: 0 <= j < |adapters| && j != i ==> name !in adapters[j].models
    ensures Listing(adapters, name) == [adapters[i]]
  {
    if i == 0 {
      ListingOfNone(adapters[1..], name);
    } else {
      assert name !in adapters[0].models;
      ListingOfOne(adapters[1..], i - 1, name);
    }
  }

  lemma {:induction false} ListingOfNone(adapters: seq<Adapter>, name: string)
    requires forall j :: 0 <= j < |adapters| ==> name !in adapters[j].models
    ensures Listing(adapters, name) == []
  {
    if adapters != [] {
      ListingOfNone(adapters[1..], name);
    }
  }

  /** Entries `i < j` both list the model: the listing has both. */
  lemma {:induction false} ListingOfTwo(adapters: seq<Adapter>, i: nat, j: nat, name: string)
    requires i < j < |adapters| && name in adapters[i].models && name in adapters[j].models
    ensures |Listing(adapters, name)| >= 2
  {
    if i == 0 {
      assert adapters[j] == adapters[1..][j - 1];
      assert adapters[j] in Listing(adapters[1..], name);
    } else {
      ListingOfTwo(adapters[1..], i - 1, j - 1, name);
    }
  }

  /** The one adapter listing the model is chosen. */
  lemma UniqueListingChosen(adapters: seq<Adapter>, i: nat, modelName: string, wordsList: seq<string> -> string)
    requires |adapters| != 1 && i < |adapters| && modelName in adapters[i].models
    requires forall j :: 0 <= j < |adapters| && j != i ==> modelName !in adapters[j].models
    ensures FindAdapter(adapters, modelName, wordsList) == Ok(adapters[i])
  {
    ListingOfOne(adapters, i, modelName);
  }

  /** Two adapters listing the model are a configuration error. */
  lemma ListedTwiceRejected(adapters: seq<Adapter>, i: nat, j: nat, modelName: string, wordsList: seq<string> -> string)
    requires i < j < |adapters| && modelName in adapters[i].models && modelName in adapters[j].models
    ensures FindAdapter(adapters, modelName, wordsList) == Err(TargetedTwice(Listing(adapters, modelName), modelName, wordsList))
  {
    ListingOfTwo(adapters, i, j, modelName);
  }

  /** No adapter lists the model: the one listing `'...'` is chosen, and
      there must be exactly one. */
  lemma RestAdapterChosen(adapters: seq<Adapter>, modelName: string, wordsList: seq<string> -> string)
    requires |adapters| != 1
    requires forall j :: 0 <= j < |adapters| ==> modelName !in adapters[j].models
    ensures var rest := Listing(adapters, AnyModel);
      && (|rest| == 1 ==> FindAdapter(adapters, modelName, wordsList) == Ok(rest[0]))
      && (|rest| == 0 ==> FindAdapter(adapters, modelName, wordsList) == Err(NoDatabase(modelName)))
      && (|rest| > 1 ==> FindAdapter(adapters, modelName, wordsList) == Err(SeveralRest(rest, wordsList)))
  {
    ListingOfNone(adapters, modelName);
  }

  /** The `mapValues` of `getAdaptersMap`, for any way `choose` of picking
      a model's adapter: every model's adapter type, or the error of the
      first model that has none. */
  function MapAdapters(modelNames: seq<string>, choose: string -> Result<Adapter>): (r: Result<map<string, string>>)
    ensures r.Ok? <==> forall i :: 0 <= i < |modelNames| ==> choose(modelNames[i]).Ok?
    ensures r.Ok? ==> r.value.Keys == set i | 0 <= i < |modelNames| :: modelNames[i]
    ensures r.Ok? ==> forall i :: 0 <= i < |modelNames| ==> r.value[modelNames[i]] == choose(modelNames[i]).value.adapterType
    ensures r.Err? ==> exists i :: (0 <= i < |modelNames| &&
      (forall j :: 0 <= j < i ==> choose(modelNames[j]).Ok?) && choose(modelNames[i]) == Err(r.error))
  {
    if modelNames == [] then Ok(map[])
    else
      var first := modelNames[0];
      var tail := modelNames[1..];
      var found := choose(first);
      if found.Err? then Err(found.error)
      else
        var rest := MapAdapters(tail, choose);
        assert forall i :: 1 <= i < |modelNames| ==> modelNames[i] == tail[i - 1];
        if rest.Err? then
          var i :| 0 <= i < |tail| && (forall j :: 0 <= j < i ==> choose(tail[j]).Ok?) && choose(tail[i]) == Err(rest.error);
          assert forall j :: 0 <= j < i + 1 ==> choose(modelNames[j]).Ok?;
          Err(rest.error)
        else
          assert (set i | 0 <= i < |modelNames| :: modelNames[i]) == (set i | 0 <= i < |tail| :: tail[i]) + {first};
          Ok(rest.value[first := found.value.adapterType])
  }

  /** `getAdaptersMap`: the models of the schema (in the order `mapValues`
      visits them) mapped to the type of their adapter. */
  function GetAdaptersMap(adapters: seq<Adapter>, modelNames: seq<string>, wordsList: seq<string> -> string):
    (r: Result<map<string, string>>)
    ensures r.Ok? <==> forall i :: 0 <= i < |modelNames| ==> FindAdapter(adapters, modelNames[i], wordsList).Ok?
    ensures r.Ok? ==> r.value.Keys == set i | 0 <= i < |modelNames| :: modelNames[i]
    ensures r.Ok? ==> forall i :: 0 <= i < |modelNames| ==>
      r.value[modelNames[i]] == FindAdapter(adapters, modelNames[i], wordsList).value.adapterType
    ensures r.Err? ==> exists i :: (0 <= i < |modelNames| &&
      (forall j :: 0 <= j < i ==> FindAdapter(adapters, modelNames[j], wordsList).Ok?) &&
      FindAdapter(adapters, modelNames[i], wordsList) == Err(r.error))
  {
    MapAdapters(modelNames, name => FindAdapter(adapters, name, wordsList))
  }
}
