/** The editor's own project, kept in the page's localStorage under one key: saveProject
    writes the whole record as JSON, loadProject validates and normalises it on the way back. */
module Storage {
  import opened Values
  import opened Projects

  const ProjectKey: string := "playcode.project.v1"

  /** `localStorage.getItem(key)`: None stands for null. */
  function Lookup(items: map<string, string>, key: string): (r: Option<string>)
    ensures r.Some? <==> key in items
    ensures r.Some? ==> r.value == items[key]
  {
    if key in items then Some(items[key]) else None
  }

  /** The record JSON.stringify(project) describes. */
  function ProjectRecord(p: Project): Value {
    Obj(map[
      "html" := Str(p.html),
      "css" := Str(p.css),
      "js" := Str(p.js),
      "autoRun" := Bool(p.autoRun),
      "activeTab" := Str(TabName(p.activeTab)),
      "runtime" := Str(RuntimeName(p.runtime)),
      "importMap" := Str(p.importMap),
      "tailwindCdn" := Bool(p.tailwindCdn)])
  }

  /** The stored active tab, when it is one of the three tab names. */
  function TabOf(v: Value): (r: Option<Tab>)
    ensures r.Some? <==> v in {Str("html"), Str("css"), Str("js")}
    ensures r.Some? ==> v == Str(TabName(r.value))
  {
    if v == Str("html") then Some(HtmlTab)
    else if v == Str("css") then Some(CssTab)
    else if v == Str("js") then Some(JsTab)
    else None
  }

  /** The validation and normalisation of loadProject, on the parsed value. The record it
      builds has no tailwindCdn; the absent property reads as false wherever the editor uses it. */
  function DecodeStored(parsed: Value): (r: Option<Project>)
    // refused unless it is an object with string html, css and js and a known tab
    ensures r.Some? <==> Truthy(parsed) && IsObjectType(parsed)
                         && Get(parsed, "html").Str? && Get(parsed, "css").Str? && Get(parsed, "js").Str?
                         && TabOf(Get(parsed, "activeTab")).Some?
    ensures r.Some? ==>
      && r.value.html == Get(parsed, "html").s
      && r.value.css == Get(parsed, "css").s
      && r.value.js == Get(parsed, "js").s
      && r.value.activeTab == TabOf(Get(parsed, "activeTab")).value
      // autoRun by truthiness, 'react' only when stored exactly, the import map when it is a string
      && r.value.autoRun == Truthy(Get(parsed, "autoRun"))
      && (r.value.runtime == React <==> Get(parsed, "runtime") == Str("react"))
      && r.value.importMap == (if Get(parsed, "importMap").Str? then Get(parsed, "importMap").s else "")
      && !r.value.tailwindCdn
  {
    if !Truthy(parsed) || !IsObjectType(parsed) then None
    else
      var html := Get(parsed, "html");
      var css := Get(parsed, "css");
      var js := Get(parsed, "js");
      if !html.Str? || !css.Str? || !js.Str? then None
      else
        match TabOf(Get(parsed, "activeTab"))
        case None => None
        case Some(tab) =>
          var runtime := if Get(parsed, "runtime") == Str("react") then React else Vanilla;
          var importMap := if Get(parsed, "importMap").Str? then Get(parsed, "importMap").s else "";
          Some(Project(html.s, css.s, js.s, Truthy(Get(parsed, "autoRun")), tab, runtime, importMap, false))
  }

  /** loadProject, given what is stored under the project key. None stands for its null,
      returned for every failure (nothing stored, empty text, JSON that does not parse). */
  function LoadProject(raw: Option<string>, lib: Lib): (r: Option<Project>)
    ensures raw.None? || raw.value == [] || lib.parse(raw.value).None? ==> r == None
    ensures raw.Some? && raw.value != [] && lib.parse(raw.value).Some? ==> r == DecodeStored(lib.parse(raw.value).value)
  {
    if raw.None? || raw.value == [] then None
    else
      match lib.parse(raw.value)
      case None => None
      case Some(parsed) => DecodeStored(parsed)
  }

  /** saveProject: the whole project as JSON under the project key; a refused write
      (`accepted` false) is swallowed and leaves the storage as it was. */
  function SaveProject(items: map<string, string>, p: Project, lib: Lib, accepted: bool): (r: map<string, string>)
    ensures forall k :: k != ProjectKey ==> Lookup(r, k) == Lookup(items, k)
    ensures accepted ==> Lookup(r, ProjectKey) == Some(lib.stringify(ProjectRecord(p)))
    ensures !accepted ==> r == items
  {
    if accepted then items[ProjectKey := lib.stringify(ProjectRecord(p))] else items
  }

  /** The saved record passes validation and reads back as the project, Tailwind flag off. */
  lemma DecodeProjectRecord(p: Project)
    ensures DecodeStored(ProjectRecord(p)) == Some(p.(tailwindCdn := false))
  {
    var rec := ProjectRecord(p);
    assert Get(rec, "html") == Str(p.html) && Get(rec, "css") == Str(p.css) && Get(rec, "js") == Str(p.js);
    assert Get(rec, "activeTab") == Str(TabName(p.activeTab));
    assert Get(rec, "autoRun") == Bool(p.autoRun);
    assert Get(rec, "runtime") == Str(RuntimeName(p.runtime));
    assert Get(rec, "importMap") == Str(p.importMap);
  }

  /** What saveProject writes, loadProject parses back to the saved record. */
  lemma LoadSavedRecord(items: map<string, string>, p: Project, lib: Lib)
    requires Lawful(lib)
    ensures var raw := Lookup(SaveProject(items, p, lib, true), ProjectKey);
            raw.Some? && raw.value != [] && lib.parse(raw.value) == Some(ProjectRecord(p))
  {
    var rec := ProjectRecord(p);
    assert IsJson(rec);
    assert lib.parse(lib.stringify(rec)) == Some(rec);
  }

  /** Saving then loading keeps every field but the Tailwind flag, which comes back off. */
  lemma SaveLoadLosesTailwind(items: map<string, string>, p: Project, lib: Lib)
    requires Lawful(lib)
    ensures LoadProject(Lookup(SaveProject(items, p, lib, true), ProjectKey), lib) == Some(p.(tailwindCdn := false))
  {
    LoadSavedRecord(items, p, lib);
    DecodeProjectRecord(p);
  }

  /** So a project with Tailwind on does not survive a reload. */
  lemma TailwindLostOnReload(items: map<string, string>, p: Project, lib: Lib)
    requires Lawful(lib) && p.tailwindCdn
    ensures LoadProject(Lookup(SaveProject(items, p, lib, true), ProjectKey), lib) != Some(p)
  {
    SaveLoadLosesTailwind(items, p, lib);
  }

  /** loadProject reading the Tailwind flag back, by truthiness like autoRun. */
  function LoadProjectKeepingTailwind(raw: Option<string>, lib: Lib): (r: Option<Project>)
    ensures r.Some? <==> LoadProject(raw, lib).Some?
    ensures r.Some? ==> r.value.(tailwindCdn := false) == LoadProject(raw, lib).value
  {
    match LoadProject(raw, lib)
    case None => None
    case Some(p) => Some(p.(tailwindCdn := Truthy(Get(lib.parse(raw.value).value, "tailwindCdn"))))
  }

  /** With the flag read back, saving then loading gives back the project exactly. */
  lemma SaveLoadRoundTrip(items: map<string, string>, p: Project, lib: Lib)
    requires Lawful(lib)
    ensures LoadProjectKeepingTailwind(Lookup(SaveProject(items, p, lib, true), ProjectKey), lib) == Some(p)
  {
    SaveLoadLosesTailwind(items, p, lib);
    LoadSavedRecord(items, p, lib);
    assert Get(ProjectRecord(p), "tailwindCdn") == Bool(p.tailwindCdn);
  }
}
