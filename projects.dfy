/** The project record the playground edits, runs, shares and stores. */
module Projects {

  datatype Runtime = Vanilla | React

  datatype Tab = HtmlTab | CssTab | JsTab

  /** The full editor record. (The record type declared in the repository lists only the
      first five fields; the code everywhere also reads `runtime`, `importMap` and `tailwindCdn`.) */
  datatype Project = Project(
    html: string,
    css: string,
    js: string,
    autoRun: bool,
    activeTab: Tab,
    runtime: Runtime,
    importMap: string,
    tailwindCdn: bool)

  /** The six fields a run depends on: what a share link carries and what the
      last-run snapshot remembers. */
  datatype RunFields = RunFields(
    html: string,
    css: string,
    js: string,
    runtime: Runtime,
    importMap: string,
    tailwindCdn: bool)

  function FieldsOf(p: Project): RunFields {
    RunFields(p.html, p.css, p.js, p.runtime, p.importMap, p.tailwindCdn)
  }

  function RuntimeName(r: Runtime): string {
    match r
    case Vanilla => "vanilla"
    case React => "react"
  }

  function TabName(t: Tab): string {
    match t
    case HtmlTab => "html"
    case CssTab => "css"
    case JsTab => "js"
  }
}
