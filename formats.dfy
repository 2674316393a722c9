/** Looking up a format adapter (src/formats/get.js). The table of format
    adapters (in `Object.values` order), `type-is`'s `is`, `path.extname`
    and `getAdapter` are parameters; a found format stands for its wrapped
    adapter. */
module Formats {
  import opened Outcomes

  datatype Format = Format(
    name: string,
    title: string,
    mimes: seq<string>,
    mimeExtensions: seq<string>,
    extensions: seq<string>,
    unsafe: bool)

  /** `formats.find(p)`, searching from index `from`. */
  function FindFormat(formats: seq<Format>, p: Format -> bool, from: nat): (r: Option<nat>)
    requires from <= |formats|
    ensures r.Some? ==> from <= r.value < |formats| && p(formats[r.value])
    ensures r.Some? ==> forall j :: from <= j < r.value ==> !p(formats[j])
    ensures r.None? ==> forall j :: from <= j < |formats| ==> !p(formats[j])
    decreases |formats| - from
  {
    if from == |formats| then None
    else if p(formats[from]) then Some(from)
    else FindFormat(formats, p, from + 1)
  }

  /** The formats that do not execute code. */
  function SafeFormats(formats: seq<Format>): (r: seq<Format>)
    ensures |r| <= |formats|
    ensures forall f :: f in r <==> f in formats && !f.unsafe
  {
    if formats == [] then []
    else
      var rest := SafeFormats(formats[1..]);
      assert forall f :: f in formats <==> f == formats[0] || f in formats[1..];
      if formats[0].unsafe then rest else [formats[0]] + rest
  }

  lemma {:induction false} SafeFormatsConcat(a: seq<Format>, b: seq<Format>)
    ensures SafeFormats(a + b) == SafeFormats(a) + SafeFormats(b)
  {
    if a == [] {
      assert a + b == b;
    } else {
      assert (a + b)[0] == a[0];
      assert (a + b)[1..] == a[1..] + b;
      SafeFormatsConcat(a[1..], b);
    }
  }

  /** `getFormats` */
  function GetFormats(formats: seq<Format>, safe: bool): (r: seq<Format>)
    ensures !safe ==> r == formats
    ensures safe ==> forall f :: f in r <==> f in formats && !f.unsafe
  {
    if !safe then formats else SafeFormats(formats)
  }

  function Unsupported(format: string): Error {
    Plain("Unsupported format: '" + format + "'")
  }

  /** `mimeMatches`: one of `mimes` matches `mime`, tried both ways round. */
  predicate MimeMatches(isType: (string, string) -> bool, mime: string, mimes: seq<string>) {
    mimes != [] && (isType(mime, mimes[0]) || isType(mimes[0], mime) || MimeMatches(isType, mime, mimes[1..]))
  }

  /** The test is symmetric in the two MIME types. */
  lemma MimeMatchesSymmetric(isType: (string, string) -> bool, a: string, b: string)
    ensures MimeMatches(isType, a, [b]) <==> MimeMatches(isType, b, [a])
  {
    assert [b][1..] == [] && [a][1..] == [];
  }

  /** `mimes.some(...)`: some entry of `mimes` matches `mime`, one way round
      or the other. */
  lemma {:induction false} MimeMatchesSome(isType: (string, string) -> bool, mime: string, mimes: seq<string>)
    ensures MimeMatches(isType, mime, mimes) <==>
      exists i :: 0 <= i < |mimes| && (isType(mime, mimes[i]) || isType(mimes[i], mime))
  {
    if mimes != [] {
      MimeMatchesSome(isType, mime, mimes[1..]);
      forall i | 0 < i < |mimes|
        ensures mimes[i] == mimes[1..][i - 1]
      {
      }
    }
  }

  /** The format `getByMime` returns: the first whose `mimes` match when
      there is one, otherwise the first whose `mimeExtensions` match. */
  predicate FirstByMime(fs: seq<Format>, isType: (string, string) -> bool, mime: string, i: nat) {
    i < |fs| &&
    if MimeMatches(isType, mime, fs[i].mimes) then
      forall j :: 0 <= j < i ==> !MimeMatches(isType, mime, fs[j].mimes)
    else
      && MimeMatches(isType, mime, fs[i].mimeExtensions)
      && (forall j :: 0 <= j < |fs| ==> !MimeMatches(isType, mime, fs[j].mimes))
      && (forall j :: 0 <= j < i ==> !MimeMatches(isType, mime, fs[j].mimeExtensions))
  }

  /** `getByMime` */
  function GetByMime(formats: seq<Format>, isType: (string, string) -> bool, mime: string, safe: bool): (r: Result<Format>)
    ensures var fs := GetFormats(formats, safe);
      && (r.Ok? <==> exists f :: f in fs && (MimeMatches(isType, mime, f.mimes) || MimeMatches(isType, mime, f.mimeExtensions)))
      && (r.Ok? ==> exists i: nat :: FirstByMime(fs, isType, mime, i) && fs[i] == r.value)
      && (r.Err? ==> r.error == Unsupported(mime))
  {
    var fs := GetFormats(formats, safe);
    assert forall f :: f in fs ==> exists j :: 0 <= j < |fs| && fs[j] == f;
    match FindFormat(fs, (f: Format) => MimeMatches(isType, mime, f.mimes), 0)
    case Some(i) =>
      assert FirstByMime(fs, isType, mime, i);
      Ok(fs[i])
    case None =>
      match FindFormat(fs, (f: Format) => MimeMatches(isType, mime, f.mimeExtensions), 0)
      case Some(j) =>
        assert FirstByMime(fs, isType, mime, j);
        Ok(fs[j])
      case None => Err(Unsupported(mime))
  }

  /** A format matching through `mimes` is always preferred to one matching
      only through `mimeExtensions`, whatever their order. */
  lemma MimesPreferred(formats: seq<Format>, isType: (string, string) -> bool, mime: string, safe: bool, f: Format)
    requires f in GetFormats(formats, safe) && MimeMatches(isType, mime, f.mimes)
    ensures GetByMime(formats, isType, mime, safe).Ok?
    ensures MimeMatches(isType, mime, GetByMime(formats, isType, mime, safe).value.mimes)
  {
    var fs := GetFormats(formats, safe);
    var k :| 0 <= k < |fs| && fs[k] == f;
    var r := GetByMime(formats, isType, mime, safe);
    assert r.Ok?;
    var i: nat :| FirstByMime(fs, isType, mime, i) && fs[i] == r.value;
  }

  /** Nothing matches either way: the MIME type is unsupported. */
  lemma UnknownMimeRejected(formats: seq<Format>, isType: (string, string) -> bool, mime: string, safe: bool)
    requires forall f :: f in GetFormats(formats, safe) ==>
      !MimeMatches(isType, mime, f.mimes) && !MimeMatches(isType, mime, f.mimeExtensions)
    ensures GetByMime(formats, isType, mime, safe) == Err(Unsupported(mime))
  {
    var fs := GetFormats(formats, safe);
    assert forall j :: 0 <= j < |fs| ==> fs[j] in fs;
  }

  /** `extname(path).slice(1)` */
  function FileExt(extname: string): (e: string)
    ensures extname == "" ==> e == ""
    ensures extname != "" ==> extname == [extname[0]] + e
  {
    if |extname| == 0 then "" else extname[1..]
  }

  /** `getByExt`: the first format listing the extension, without its dot. */
  function GetByExt(formats: seq<Format>, extname: string -> string, path: string, safe: bool): (r: Result<Format>)
    ensures var fs := GetFormats(formats, safe);
      var ext := FileExt(extname(path));
      && (r.Ok? <==> exists f :: f in fs && ext in f.extensions)
      && (r.Ok? ==> (r.value in fs && ext in r.value.extensions &&
            exists i :: 0 <= i < |fs| && fs[i] == r.value && forall j :: 0 <= j < i ==> ext !in fs[j].extensions))
      && (r.Err? ==> r.error == Unsupported("." + ext))
  {
    var fs := GetFormats(formats, safe);
    var ext := FileExt(extname(path));
    match FindFormat(fs, (f: Format) => ext in f.extensions, 0)
    case Some(i) => Ok(fs[i])
    case None =>
      assert forall j :: 0 <= j < |fs| ==> ext !in fs[j].extensions;
      Err(Unsupported("." + ext))
  }

  /** `getFormat`: the format `getAdapter` returns for the key, rejected
      when only safe formats are allowed and it is not one. */
  function GetFormat(getAdapter: string -> Result<Format>, key: string, safe: bool): (r: Result<Format>)
    ensures getAdapter(key).Err? ==> r == getAdapter(key)
    ensures getAdapter(key).Ok? ==> (r.Ok? <==> !safe || !getAdapter(key).value.unsafe)
    ensures r.Ok? ==> r == getAdapter(key)
    ensures getAdapter(key).Ok? && r.Err? ==> r.error == Unsupported(getAdapter(key).value.title)
  {
    match getAdapter(key)
    case Err(e) => Err(e)
    case Ok(format) =>
      if !safe || !format.unsafe then Ok(format) else Err(Unsupported(format.title))
  }

  /** The `mimes` then the `mimeExtensions` of each format, in order. */
  function AllMimes(formats: seq<Format>): (r: seq<string>)
    ensures forall m :: m in r <==> exists f :: f in formats && (m in f.mimes || m in f.mimeExtensions)
  {
    if formats == [] then []
    else
      assert forall f :: f in formats <==> f == formats[0] || f in formats[1..];
      formats[0].mimes + formats[0].mimeExtensions + AllMimes(formats[1..])
  }

  lemma {:induction false} AllMimesConcat(a: seq<Format>, b: seq<Format>)
    ensures AllMimes(a + b) == AllMimes(a) + AllMimes(b)
  {
    if a == [] {
      assert a + b == b;
    } else {
      assert (a + b)[0] == a[0];
      assert (a + b)[1..] == a[1..] + b;
      AllMimesConcat(a[1..], b);
    }
  }

  /** `getMimes`: the MIME types of the allowed formats, in order. */
  function GetMimes(formats: seq<Format>, safe: bool): (r: seq<string>)
    ensures forall m :: m in r <==> exists f :: f in GetFormats(formats, safe) && (m in f.mimes || m in f.mimeExtensions)
    ensures !safe ==> r == AllMimes(formats)
  {
    AllMimes(GetFormats(formats, safe))
  }
}
