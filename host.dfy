/** The editor page: its project and last-run snapshot, the console log, the mirror of the
    preview's storage, the message handler, and the editing operations. */
module Host {
  import opened Values
  import opened Text
  import opened Projects
  import opened Bridge
  import opened PreviewStorage
  import opened SrcDoc
  import opened Share
  import opened Storage

  const PreviewStorageKey: string := "playcode.preview.storage.v1"

  /** One console line; the id (crypto.randomUUID) and timestamp (Date.now) are supplied by the caller. */
  datatype ConsoleEntry = ConsoleEntry(id: string, level: Level, ts: int, args: seq<Value>)

  /** The six run fields a snapshot remembers. */
  function SnapshotFields(s: DocInput): RunFields {
    RunFields(s.html, s.css, s.js, s.runtime, s.importMap, s.tailwindCdn)
  }

  /** The snapshot a run takes: the project's run fields and the storage seed. */
  function SnapshotOf(p: Project, storageSeed: string): (s: DocInput)
    ensures SnapshotFields(s) == FieldsOf(p) && s.storageSeed == storageSeed
  {
    DocInput(p.html, p.css, p.js, p.runtime, p.importMap, p.tailwindCdn, storageSeed)
  }

  /** isDirty: some run field differs from the snapshot of the last run. */
  function IsDirty(p: Project, last: DocInput): (r: bool)
    ensures r <==> FieldsOf(p) != SnapshotFields(last)
  {
    || p.html != last.html
    || p.css != last.css
    || p.js != last.js
    || p.runtime != last.runtime
    || p.importMap != last.importMap
    || p.tailwindCdn != last.tailwindCdn
  }

  /** persistPreviewStorage: the mirror as JSON under the preview-storage key; a refused
      write is swallowed. */
  function PersistPreviewStorage(items: map<string, string>, m: Mirror, lib: Lib, accepted: bool): (r: map<string, string>)
    ensures forall k :: k != PreviewStorageKey ==> Lookup(r, k) == Lookup(items, k)
    ensures !accepted ==> r == items
  {
    if accepted then items[PreviewStorageKey := lib.stringify(StorageJson(m))] else items
  }

  /** A persisted mirror is the one the next visit starts from. */
  lemma PersistThenLoad(items: map<string, string>, m: Mirror, lib: Lib)
    requires Lawful(lib) && JsonMirror(m)
    ensures LoadPreviewStorage(Lookup(PersistPreviewStorage(items, m, lib, true), PreviewStorageKey), lib) == m
  {
    PreviewStorageRoundTrip(m, lib);
  }

  /** The project the editor opens with: a valid share link wins, then the saved project,
      then the default project. The saved project is read with its Tailwind flag
      (LoadProject is the code as written, which drops it). */
  function InitialProject(hash: string, items: map<string, string>, defaults: Project, lib: Lib): Project {
    match DecodeProjectFromHash(hash, lib)
    case Some(p) => p
    case None =>
      match LoadProjectKeepingTailwind(Lookup(items, ProjectKey), lib)
      case Some(p) => p
      case None => defaults
  }

  /** The project the editor opens with, exactly as written: the saved project is read by
      loadProject, which drops the Tailwind flag. */
  function InitialProjectAsWritten(hash: string, items: map<string, string>, defaults: Project, lib: Lib): Project {
    match DecodeProjectFromHash(hash, lib)
    case Some(p) => p
    case None =>
      match LoadProject(Lookup(items, ProjectKey), lib)
      case Some(p) => p
      case None => defaults
  }

  /** The initializer as written and the corrected one differ in the Tailwind flag only, and
      only when the saved project is opened with the flag on. */
  lemma InitialProjectAsWrittenAgrees(hash: string, items: map<string, string>, defaults: Project, lib: Lib)
    ensures InitialProjectAsWritten(hash, items, defaults, lib).(tailwindCdn := false)
         == InitialProject(hash, items, defaults, lib).(tailwindCdn := false)
    ensures InitialProjectAsWritten(hash, items, defaults, lib) == InitialProject(hash, items, defaults, lib)
        <==> || DecodeProjectFromHash(hash, lib).Some?
             || LoadProject(Lookup(items, ProjectKey), lib).None?
             || !InitialProject(hash, items, defaults, lib).tailwindCdn
  {
  }

  /** As written, the saved project reopens with its Tailwind flag off. */
  lemma SavedProjectReopensAsWritten(hash: string, items: map<string, string>, p: Project, defaults: Project, lib: Lib)
    requires Lawful(lib) && DecodeProjectFromHash(hash, lib).None?
    ensures InitialProjectAsWritten(hash, SaveProject(items, p, lib, true), defaults, lib) == p.(tailwindCdn := false)
  {
    SaveLoadLosesTailwind(items, p, lib);
  }

  /** A share link opens on the project it was made from, whatever is saved locally. */
  lemma SharedLinkOpens(p: Project, items: map<string, string>, defaults: Project, lib: Lib)
    requires Lawful(lib)
    ensures var q := InitialProject(EncodeProjectToHash(FieldsOf(p), lib), items, defaults, lib);
            FieldsOf(q) == FieldsOf(p) && q.autoRun
  {
    ShareRoundTrip(FieldsOf(p), lib);
  }

  /** With the corrected loader, and without a share link, the editor reopens on the project
      it last saved, Tailwind flag included. */
  lemma SavedProjectReopens(hash: string, items: map<string, string>, p: Project, defaults: Project, lib: Lib)
    requires Lawful(lib) && DecodeProjectFromHash(hash, lib).None?
    ensures InitialProject(hash, SaveProject(items, p, lib, true), defaults, lib) == p
  {
    SaveLoadRoundTrip(items, p, lib);
  }

  // ---- editing ----

  /** The text the editor shows: the code of the active tab. */
  function EditorText(p: Project): string {
    match p.activeTab
    case HtmlTab => p.html
    case CssTab => p.css
    case JsTab => p.js
  }

  /** setCodeForActiveTab: the new text goes to the active tab's code and nowhere else. */
  function SetCodeForActiveTab(p: Project, value: string): (r: Project)
    ensures EditorText(r) == value
    ensures r.(html := p.html, css := p.css, js := p.js) == p
    ensures p.activeTab != HtmlTab ==> r.html == p.html
    ensures p.activeTab != CssTab ==> r.css == p.css
    ensures p.activeTab != JsTab ==> r.js == p.js
  {
    if p.activeTab == HtmlTab then p.(html := value)
    else if p.activeTab == CssTab then p.(css := value)
    else p.(js := value)
  }

  /** Writing back the text the editor shows changes nothing; the last write wins. */
  lemma SetCodeLaws(p: Project, a: string, b: string)
    ensures SetCodeForActiveTab(p, EditorText(p)) == p
    ensures SetCodeForActiveTab(SetCodeForActiveTab(p, a), b) == SetCodeForActiveTab(p, b)
  {
  }

  /** The React/JSX checkbox: sets the runtime, opens the JS tab, and when switching to React
      with a blank import map puts in the template's import map (a parameter here). */
  function ToggleRuntime(p: Project, checked: bool, templateImportMap: string): (r: Project)
    ensures r.runtime == (if checked then React else Vanilla)
    ensures r.activeTab == JsTab
    ensures r.importMap == (if checked && Trim(p.importMap) == [] then templateImportMap else p.importMap)
    ensures r.(runtime := p.runtime, activeTab := p.activeTab, importMap := p.importMap) == p
  {
    var runtime := if checked then React else Vanilla;
    var importMap := if runtime == React && Trim(p.importMap) == [] then templateImportMap else p.importMap;
    p.(runtime := runtime, importMap := importMap, activeTab := JsTab)
  }

  /** Clicking the checkbox twice to the same state is clicking it once; the code is never touched. */
  lemma ToggleRuntimeIdempotent(p: Project, checked: bool, templateImportMap: string)
    ensures var q := ToggleRuntime(p, checked, templateImportMap);
            && ToggleRuntime(q, checked, templateImportMap) == q
            && q.html == p.html && q.css == p.css && q.js == p.js
  {
  }

  /** The dependency dialog's outcome: the updated project, or the parse error shown in the dialog. */
  datatype DepsOutcome = Applied(project: Project) | Rejected

  /** applyDeps: a blank draft clears the import map; a draft that parses is stored
      pretty-printed; a draft that does not parse changes nothing. The Tailwind flag is
      taken from the dialog whenever the draft is accepted. */
  function ApplyDeps(p: Project, draft: string, tailwind: bool, lib: Lib): (r: DepsOutcome)
    ensures r.Rejected? <==> Trim(draft) != [] && lib.parse(Trim(draft)).None?
    ensures r.Applied? ==> r.project.(importMap := p.importMap, tailwindCdn := p.tailwindCdn) == p
                           && r.project.tailwindCdn == tailwind
    ensures Trim(draft) == [] ==> r == Applied(p.(importMap := "", tailwindCdn := tailwind))
  {
    var trimmed := Trim(draft);
    if trimmed == [] then Applied(p.(importMap := "", tailwindCdn := tailwind))
    else
      match lib.parse(trimmed)
      case None => Rejected
      case Some(parsed) => Applied(p.(importMap := lib.prettify(parsed), tailwindCdn := tailwind))
  }

  /** The stored import map means what the draft meant: parsing it gives the draft's value. */
  lemma ApplyDepsKeepsMeaning(p: Project, draft: string, tailwind: bool, lib: Lib)
    requires Lawful(lib)
    requires Trim(draft) != [] && ApplyDeps(p, draft, tailwind, lib).Applied?
    ensures var q := ApplyDeps(p, draft, tailwind, lib).project;
            Trim(q.importMap) == q.importMap && lib.parse(q.importMap) == lib.parse(Trim(draft))
  {
    var v := lib.parse(Trim(draft)).value;
    assert IsJson(v);
    TrimTidy(lib.prettify(v));
  }

  /** Applying the stored import map again is a no-op: the normal form is a fixed point. */
  lemma ApplyDepsIdempotent(p: Project, draft: string, tailwind: bool, lib: Lib)
    requires Lawful(lib) && ApplyDeps(p, draft, tailwind, lib).Applied?
    ensures var q := ApplyDeps(p, draft, tailwind, lib).project;
            ApplyDeps(q, q.importMap, tailwind, lib) == Applied(q)
  {
    var q := ApplyDeps(p, draft, tailwind, lib).project;
    if Trim(draft) != [] {
      ApplyDepsKeepsMeaning(p, draft, tailwind, lib);
      var v := lib.parse(Trim(draft)).value;
      assert q.importMap == lib.prettify(v);
      assert lib.parse(Trim(q.importMap)) == Some(v);
    } else {
      assert q.importMap == [];
    }
  }

  /** Two import maps that trim to text parsing to the same value give the same tag. */
  lemma SameParseSameTag(a: string, b: string, lib: Lib)
    requires Trim(a) != [] && Trim(b) != [] && lib.parse(Trim(a)) == lib.parse(Trim(b))
    ensures ImportMapTag(a, lib) == ImportMapTag(b, lib)
  {
  }

  // ---- the editor page ----

  /** The editor's state. `local` and `session` are the mirror of the preview's storage;
      `items` is the page's own localStorage. */
  class App {
    const lib: Lib
    const templates: Templates
    var project: Project
    var lastRun: DocInput
    var console: seq<ConsoleEntry>
    var local: map<string, Value>
    var session: map<string, Value>
    var items: map<string, string>

    function MirrorOf(): Mirror
      reads this
    {
      Mirror(local, session)
    }

    ghost predicate Valid()
      reads this
    {
      JsonMirror(MirrorOf())
    }

    /** The preview document. The source keeps it in its own state but sets it only
        together with the snapshot, always to buildSrcDoc of that snapshot; with the
        program's own templates this is BuildSrcDoc(lastRun, lib), the corrected document;
        DocumentAsWrittenAgreesIff says when it is also the program's. */
    function SrcDoc(): string
      reads this
    {
      Document(lastRun, lib, templates)
    }

    /** The seed of the next run: the mirror as JSON. */
    function Seed(): string
      reads this
    {
      lib.stringify(StorageJson(MirrorOf()))
    }

    /** The page opening: the project (by the corrected initializer, InitialProject), the
        mirror read back from localStorage, a first snapshot and document, an empty console. */
    constructor(hash: string, items: map<string, string>, defaults: Project, lib: Lib, templates: Templates)
      requires Lawful(lib)
      ensures Valid() && this.lib == lib && this.templates == templates && this.items == items
      ensures project == InitialProject(hash, items, defaults, lib)
      ensures MirrorOf() == LoadPreviewStorage(Lookup(items, PreviewStorageKey), lib)
      ensures lastRun == SnapshotOf(project, Seed()) && !IsDirty(project, lastRun)
      ensures console == []
    {
      this.lib := lib;
      this.templates := templates;
      this.items := items;
      project := InitialProject(hash, items, defaults, lib);
      var m := LoadPreviewStorage(Lookup(items, PreviewStorageKey), lib);
      LoadedMirrorIsJson(Lookup(items, PreviewStorageKey), lib);
      local := m.local;
      session := m.session;
      new;
      Run();
    }

    /** run: clear the console, snapshot the project and the storage seed, rebuild the document. */
    method Run()
      requires Valid()
      modifies this
      ensures Valid()
      ensures console == []
      ensures lastRun == SnapshotOf(project, Seed())
      ensures !IsDirty(project, lastRun)
      ensures project == old(project) && MirrorOf() == old(MirrorOf()) && items == old(items)
    {
      console := [];
      var snapshot := SnapshotOf(project, lib.stringify(StorageJson(MirrorOf())));
      lastRun := snapshot;
    }

    /** onMessage, with the entry id and the time supplied. `accepted` says whether the page's
        localStorage takes the write that follows a storage update. */
    method OnMessage(data: Value, id: string, ts: int, accepted: bool)
      requires Valid()
      modifies this
      ensures Valid()
      ensures project == old(project) && lastRun == old(lastRun)
      // the mirror moves exactly as the message router says
      ensures MirrorOf() == HostStep(old(MirrorOf()), data, lib)
      ensures match RouteOf(data)
              case Ignore => console == old(console) && items == old(items)
              case Append(level, args) => console == old(console) + [ConsoleEntry(id, level, ts, args)]
                                          && items == old(items)
              case Store(u) => console == old(console)
                               && items == (match Update(old(MirrorOf()), u, lib)
                                            case None => old(items)
                                            case Some(m) => PersistPreviewStorage(old(items), m, lib, accepted))
    {
      match RouteOf(data)
      case Ignore =>
      case Append(level, args) =>
        console := console + [ConsoleEntry(id, level, ts, args)];
      case Store(u) =>
        ApplyPreviewStorageUpdate(u, accepted);
    }

    /** applyPreviewStorageUpdate: validate the message, then change the named scope in place
        and write the whole mirror back. */
    method ApplyPreviewStorageUpdate(msg: Value, accepted: bool)
      requires Valid()
      modifies this`local, this`session, this`items
      ensures Valid()
      ensures Update(old(MirrorOf()), msg, lib).None? ==> MirrorOf() == old(MirrorOf()) && items == old(items)
      ensures Update(old(MirrorOf()), msg, lib).Some? ==>
                && MirrorOf() == Update(old(MirrorOf()), msg, lib).value
                && items == PersistPreviewStorage(old(items), MirrorOf(), lib, accepted)
    {
      ghost var before := MirrorOf();
      ghost var u := Update(before, msg, lib);
      var kind := KindOf(msg);
      if kind.None? {
        return;
      }
      var action := ActionOf(msg);
      if action.None? {
        return;
      }
      var k := kind.value;
      match action.value {
        case SetAction =>
          var key := KeyOf(msg);
          if key.None? {
            return;
          }
          var value := Coerce(Get(Get(msg, "payload"), "value"), lib);
          PutEntry(k, key.value, Str(value));
        case RemoveAction =>
          var key := KeyOf(msg);
          if key.None? {
            return;
          }
          DeleteEntry(k, key.value);
        case ClearAction =>
          ClearScope(k);
      }
      assert u == Some(MirrorOf());
      UpdateKeepsJson(before, msg, lib);
      items := PersistPreviewStorage(items, MirrorOf(), lib, accepted);
    }

    /** `store[key] = value` on one scope. */
    method PutEntry(k: Scope, key: string, value: Value)
      modifies this`local, this`session
      ensures MirrorOf() == WithScope(old(MirrorOf()), k, ScopeOf(old(MirrorOf()), k)[key := value])
    {
      if k == Local {
        local := local[key := value];
      } else {
        session := session[key := value];
      }
    }

    /** `delete store[key]` on one scope. */
    method DeleteEntry(k: Scope, key: string)
      modifies this`local, this`session
      ensures MirrorOf() == WithScope(old(MirrorOf()), k, ScopeOf(old(MirrorOf()), k) - {key})
    {
      if k == Local {
        local := local - {key};
      } else {
        session := session - {key};
      }
    }

    /** `for (const k of Object.keys(store)) delete store[k]` on one scope. */
    method ClearScope(k: Scope)
      modifies this`local, this`session
      ensures MirrorOf() == WithScope(old(MirrorOf()), k, map[])
    {
      var ks := ScopeOf(MirrorOf(), k).Keys;
      while ks != {}
        invariant ks == ScopeOf(MirrorOf(), k).Keys
        invariant forall j :: j != k ==> ScopeOf(MirrorOf(), j) == ScopeOf(old(MirrorOf()), j)
        decreases |ks|
      {
        var key :| key in ks;
        DeleteEntry(k, key);
        ks := ks - {key};
      }
      assert ScopeOf(MirrorOf(), k) == map[] by {
        assert forall key :: key !in ScopeOf(MirrorOf(), k);
      }
      assert MirrorOf() == WithScope(old(MirrorOf()), k, map[]) by {
        if k == Local {
          assert ScopeOf(MirrorOf(), Session) == ScopeOf(old(MirrorOf()), Session);
        } else {
          assert ScopeOf(MirrorOf(), Local) == ScopeOf(old(MirrorOf()), Local);
        }
      }
    }
  }

  /** Whatever the stored text, the mirror read back holds JSON values only. */
  lemma LoadedMirrorIsJson(raw: Option<string>, lib: Lib)
    requires Lawful(lib)
    ensures JsonMirror(LoadPreviewStorage(raw, lib))
  {
    if raw.Some? && raw.value != [] && lib.parse(raw.value).Some? {
      var p := lib.parse(raw.value).value;
      assert IsJson(p);
    }
  }
}
