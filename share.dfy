/** Share links: a project's run fields as `#code=<token>`, where the token is the
    LZ-compressed JSON of a versioned record, and the tolerant decoder that migrates
    every record version ever written (1 to 4) to the current project shape. */
module Share {
  import opened Values
  import opened Text
  import opened Projects

  const HashPrefix: string := "#code="

  /** The schema version the encoder writes. */
  const CurrentVersion: int := 4

  /** `{ v: 4, ...project }` */
  function ShareRecord(f: RunFields): Value {
    Obj(map[
      "v" := Num(CurrentVersion),
      "html" := Str(f.html),
      "css" := Str(f.css),
      "js" := Str(f.js),
      "runtime" := Str(RuntimeName(f.runtime)),
      "importMap" := Str(f.importMap),
      "tailwindCdn" := Bool(f.tailwindCdn)])
  }

  /** encodeProjectToHash */
  function EncodeProjectToHash(f: RunFields, lib: Lib): (r: string)
    ensures StartsWith(r, HashPrefix)
  {
    HashPrefix + lib.compress(lib.stringify(ShareRecord(f)))
  }

  /** The match of `/^#code=([^&]+)$/`: its captured group. */
  function MatchHash(hash: string): Option<string> {
    if |hash| > |HashPrefix| && hash[..|HashPrefix|] == HashPrefix && '&' !in hash[|HashPrefix|..]
    then Some(hash[|HashPrefix|..])
    else None
  }

  /** The schema version of a parsed record: 1 to 4, or 0 for anything else
      (missing, not a number, unknown, newer than the current version). */
  function VersionOf(parsed: Value): (k: int)
    ensures 0 <= k <= CurrentVersion
    ensures k != 0 <==> Get(parsed, "v") in {Num(1), Num(2), Num(3), Num(4)}
    ensures k != 0 ==> Get(parsed, "v") == Num(k)
  {
    match Get(parsed, "v")
    case Num(n) => if 1 <= n <= CurrentVersion then n else 0
    case _ => 0
  }

  /** The validation and version-migration part of decodeProjectFromHash, on the parsed JSON.
      Each version's reading is the previous version's plus one more optional field. */
  function DecodeRecord(parsed: Value): (r: Option<Project>)
    // accepted exactly for a known version whose html, css and js are strings
    ensures r.Some? <==> VersionOf(parsed) != 0 && Get(parsed, "html").Str?
                         && Get(parsed, "css").Str? && Get(parsed, "js").Str?
    ensures r.Some? ==>
      var k := VersionOf(parsed);
      && r.value.html == Get(parsed, "html").s
      && r.value.css == Get(parsed, "css").s
      && r.value.js == Get(parsed, "js").s
      // the runtime is read from version 2 on, and only the exact string 'react' selects React
      && (r.value.runtime == React <==> k >= 2 && Get(parsed, "runtime") == Str("react"))
      // the import map is read from version 3 on, when it is a string
      && r.value.importMap == (if k >= 3 && Get(parsed, "importMap").Str? then Get(parsed, "importMap").s else "")
      // the Tailwind flag is read in version 4, by truthiness
      && r.value.tailwindCdn == (k == 4 && Truthy(Get(parsed, "tailwindCdn")))
      // derived fields
      && r.value.autoRun
      && (r.value.activeTab == JsTab <==> r.value.runtime == React)
      && (r.value.activeTab != JsTab ==> r.value.activeTab == HtmlTab)
  {
    var v := Get(parsed, "v");
    if v != Num(1) && v != Num(2) && v != Num(3) && v != Num(4) then None
    else if !Get(parsed, "html").Str? || !Get(parsed, "css").Str? || !Get(parsed, "js").Str? then None
    else
      var storedRuntime := Get(parsed, "runtime");
      var storedImportMap := Get(parsed, "importMap");
      var runtime := if v == Num(2) && storedRuntime == Str("react") then React else Vanilla;
      var runtimeV3 := if v == Num(3) && storedRuntime == Str("react") then React else runtime;
      var importMap := if v == Num(3) && storedImportMap.Str? then storedImportMap.s else "";
      var runtimeV4 := if v == Num(4) && storedRuntime == Str("react") then React else runtimeV3;
      var importMapV4 := if v == Num(4) && storedImportMap.Str? then storedImportMap.s else importMap;
      var tailwindCdn := if v == Num(4) then Truthy(Get(parsed, "tailwindCdn")) else false;
      Some(Project(
        Get(parsed, "html").s, Get(parsed, "css").s, Get(parsed, "js").s,
        true,
        if runtimeV4 == React then JsTab else HtmlTab,
        runtimeV4, importMapV4, tailwindCdn))
  }

  /** decodeProjectFromHash: None stands for its `null` (every failing step, thrown or not). */
  function DecodeProjectFromHash(hash: string, lib: Lib): (r: Option<Project>)
    // only `#code=` followed by one or more characters other than '&'
    ensures r.Some? ==> |hash| > |HashPrefix| && StartsWith(hash, HashPrefix) && '&' !in hash[|HashPrefix|..]
    // the token decompresses to non-empty text that parses as JSON and passes validation
    ensures r.Some? ==>
      var token := hash[|HashPrefix|..];
      && lib.decompress(token).Some? && lib.decompress(token).value != []
      && lib.parse(lib.decompress(token).value).Some?
      && r == DecodeRecord(lib.parse(lib.decompress(token).value).value)
    // and every such hash whose record validates does yield a project
    ensures |hash| > |HashPrefix| && StartsWith(hash, HashPrefix) && '&' !in hash[|HashPrefix|..] ==>
      var token := hash[|HashPrefix|..];
      lib.decompress(token).Some? && lib.decompress(token).value != []
      && lib.parse(lib.decompress(token).value).Some?
      && DecodeRecord(lib.parse(lib.decompress(token).value).value).Some?
      ==> r.Some?
  {
    match MatchHash(hash)
    case None => None
    case Some(token) =>
      match lib.decompress(token)
      case None => None
      case Some(json) =>
        if json == [] then None
        else
          match lib.parse(json)
          case None => None
          case Some(parsed) => DecodeRecord(parsed)
  }

  /** The record a version-k encoder wrote: version 1 had html, css and js; version 2 added
      runtime, version 3 importMap, version 4 tailwindCdn. */
  function LegacyRecord(k: int, f: RunFields): Value
    requires 1 <= k <= CurrentVersion
  {
    var base := map["v" := Num(k), "html" := Str(f.html), "css" := Str(f.css), "js" := Str(f.js)];
    var v2 := if k >= 2 then base["runtime" := Str(RuntimeName(f.runtime))] else base;
    var v3 := if k >= 3 then v2["importMap" := Str(f.importMap)] else v2;
    var v4 := if k >= 4 then v3["tailwindCdn" := Bool(f.tailwindCdn)] else v3;
    Obj(v4)
  }

  function LegacyHash(k: int, f: RunFields, lib: Lib): string
    requires 1 <= k <= CurrentVersion
  {
    HashPrefix + lib.compress(lib.stringify(LegacyRecord(k, f)))
  }

  /** The project a link of version k must decode to: its own fields, the defaults for
      every field version k did not have, and the derived autoRun and activeTab. */
  function Migrated(k: int, f: RunFields): Project {
    var runtime := if k >= 2 then f.runtime else Vanilla;
    Project(f.html, f.css, f.js, true,
            if runtime == React then JsTab else HtmlTab,
            runtime,
            if k >= 3 then f.importMap else "",
            k >= 4 && f.tailwindCdn)
  }

  lemma LegacyRecordIsJson(k: int, f: RunFields)
    requires 1 <= k <= CurrentVersion
    ensures IsJson(LegacyRecord(k, f))
  {
  }

  lemma MatchCompressed(payload: string, lib: Lib)
    requires Lawful(lib) && payload != []
    ensures MatchHash(HashPrefix + lib.compress(payload)) == Some(lib.compress(payload))
  {
    var h := HashPrefix + lib.compress(payload);
    assert h[..|HashPrefix|] == HashPrefix;
    assert h[|HashPrefix|..] == lib.compress(payload);
  }

  /** Each record version is validated and migrated to the expected project. */
  lemma DecodeLegacyRecord(k: int, f: RunFields)
    requires 1 <= k <= CurrentVersion
    ensures DecodeRecord(LegacyRecord(k, f)) == Some(Migrated(k, f))
  {
    var rec := LegacyRecord(k, f);
    assert VersionOf(rec) == k;
    assert Get(rec, "html") == Str(f.html) && Get(rec, "css") == Str(f.css) && Get(rec, "js") == Str(f.js);
    if k == 1 {
      assert Get(rec, "runtime") == Undefined;
    } else if k == 2 {
      assert Get(rec, "runtime") == Str(RuntimeName(f.runtime));
    } else if k == 3 {
      assert Get(rec, "runtime") == Str(RuntimeName(f.runtime));
      assert Get(rec, "importMap") == Str(f.importMap);
    } else {
      assert Get(rec, "runtime") == Str(RuntimeName(f.runtime));
      assert Get(rec, "importMap") == Str(f.importMap);
      assert Get(rec, "tailwindCdn") == Bool(f.tailwindCdn);
    }
  }

  /** The link layer hands the decoder exactly the record the encoder wrote. */
  lemma DecodeHashOfRecord(rec: Value, lib: Lib)
    requires Lawful(lib) && IsJson(rec)
    ensures DecodeProjectFromHash(HashPrefix + lib.compress(lib.stringify(rec)), lib) == DecodeRecord(rec)
  {
    var payload := lib.stringify(rec);
    MatchCompressed(payload, lib);
    assert lib.decompress(lib.compress(payload)) == Some(payload);
    assert lib.parse(payload) == Some(rec);
  }

  /** Every link version ever written decodes, with defaults for the fields it lacked. */
  lemma DecodeLegacy(k: int, f: RunFields, lib: Lib)
    requires Lawful(lib) && 1 <= k <= CurrentVersion
    ensures DecodeProjectFromHash(LegacyHash(k, f, lib), lib) == Some(Migrated(k, f))
  {
    LegacyRecordIsJson(k, f);
    DecodeHashOfRecord(LegacyRecord(k, f), lib);
    DecodeLegacyRecord(k, f);
  }

  /** Round trip: decoding an encoded link gives back all six run fields,
      with autoRun on and the tab that suits the runtime. */
  lemma ShareRoundTrip(f: RunFields, lib: Lib)
    requires Lawful(lib)
    ensures DecodeProjectFromHash(EncodeProjectToHash(f, lib), lib)
         == Some(Project(f.html, f.css, f.js, true,
                         if f.runtime == React then JsTab else HtmlTab,
                         f.runtime, f.importMap, f.tailwindCdn))
  {
    assert LegacyRecord(CurrentVersion, f) == ShareRecord(f);
    DecodeLegacy(CurrentVersion, f, lib);
  }

  /** A record of an unknown version is refused whatever else it holds. */
  lemma UnknownVersionRejected(parsed: Value)
    requires Get(parsed, "v") !in {Num(1), Num(2), Num(3), Num(4)}
    ensures DecodeRecord(parsed) == None
  {
  }
}
