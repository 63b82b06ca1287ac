/**
 * The localized JSON bundles the terminal reads through `loadJson(lang, file)`, taken as inputs:
 * each bundle is absent when its fetch fails and otherwise holds one section per language code.
 * Also `getFileContent` and `getProjectData` (v2/script.js), which read them.
 */
module Bundles {
  import opened Wrappers

  type Bundle<T> = Option<map<string, T>>

  /** `data?.[lang]`. */
  function Section<T>(b: Bundle<T>, lang: string): (r: Option<T>)
    ensures r.Some? <==> b.Some? && lang in b.value
    ensures r.Some? ==> r.value == b.value[lang]
  {
    if b.Some? && lang in b.value then Some(b.value[lang]) else None
  }

  /** JavaScript's `a || fallback` on a string that may be missing: an empty string counts as missing. */
  function OrElse(a: Option<string>, fallback: string): string {
    if a.Some? && a.value != "" then a.value else fallback
  }

  /** `localStorage.getItem("lang") || "es"`. */
  function Language(stored: Option<string>): (lang: string)
    ensures lang != ""
    ensures stored.None? || stored.value == "" ==> lang == "es"
    ensures stored.Some? && stored.value != "" ==> lang == stored.value
  {
    OrElse(stored, "es")
  }

  /** A project record of the `projects` bundle. */
  datatype Project = Project(title: string, description: string, technologies: seq<string>, images: seq<string>, link: string)

  /** One key of a language's projects object, in the object's order. */
  datatype ProjectEntry = ProjectEntry(name: string, project: Project)

  /** The `content` bundle's section: the text of the three files. */
  datatype Content = Content(bio: Option<string>, skills: Option<string>, contact: Option<string>)

  /** `errors.catProjects` of the `errors` bundle; modelled as present only with both strings. */
  datatype CatProjectsText = CatProjectsText(separator: string, seeGallery: string)

  /** The templates of the `errors` bundle's `errors` object that the commands use. */
  datatype Errors = Errors(
    commandNotFound: Option<string>,
    lsNoDir: Option<string>,
    cdNoDir: Option<string>,
    catNoFile: Option<string>,
    catProjects: Option<CatProjectsText>)

  /** The `availableCommands` bundle's section: the help title and one description per command. */
  datatype HelpText = HelpText(
    helpTitle: string, pwd: string, whoami: string, ls: string, lsLa: string, cd: string,
    cdBack: string, cat: string, skillsAll: string, contact: string, wget: string,
    clear: string, help: string)

  /**
   * Everything a command may read besides the session: the stored language, the page's path
   * (`window.location.pathname`) and the bundles. `whoami` and `wget` sections are the values
   * of their objects, in order (`Object.values`).
   */
  datatype Env = Env(
    storedLang: Option<string>,
    pagePath: string,
    content: Bundle<Content>,
    errors: Bundle<Errors>,
    projects: Bundle<seq<ProjectEntry>>,
    whoami: Bundle<seq<string>>,
    wget: Bundle<seq<string>>,
    availableCommands: Bundle<HelpText>)
  {
    function Lang(): string {
      Language(storedLang)
    }
  }

  const NoErrors := Errors(None, None, None, None, None)

  /** `errorsData?.[lang]?.errors`, with every template missing when the section is. */
  function ErrorsOf(env: Env): Errors {
    Section(env.errors, env.Lang()).GetOr(NoErrors)
  }

  const Unavailable := "Contenido no disponible"
  const UnknownFile := "Archivo no encontrado"

  /** `getFileContent(filename)`: the localized text, or a fallback; never empty. */
  function FileContent(env: Env, filename: string): (r: string)
    ensures r != ""
    ensures Section(env.content, env.Lang()).None? ==> r == Unavailable
    ensures Section(env.content, env.Lang()).Some? ==>
      var c := Section(env.content, env.Lang()).value;
      var text := if filename == "bio.txt" then c.bio
                  else if filename == "skills.txt" then c.skills
                  else if filename == "contact.txt" then c.contact
                  else None;
      r == (if text.Some? && text.value != "" then text.value else UnknownFile)
  {
    match Section(env.content, env.Lang())
    case None => Unavailable
    case Some(c) =>
      var text := if filename == "bio.txt" then c.bio
                  else if filename == "skills.txt" then c.skills
                  else if filename == "contact.txt" then c.contact
                  else None;
      OrElse(text, UnknownFile)
  }

  /** The first project called `name`. */
  function FindProject(entries: seq<ProjectEntry>, name: string): (r: Option<Project>)
    ensures r.Some? ==>
      exists i :: 0 <= i < |entries| && entries[i] == ProjectEntry(name, r.value) &&
        (forall j :: 0 <= j < i ==> entries[j].name != name)
    ensures r.None? ==> forall i :: 0 <= i < |entries| ==> entries[i].name != name
  {
    if entries == [] then None
    else if entries[0].name == name then Some(entries[0].project)
    else
      var r := FindProject(entries[1..], name);
      assert forall i :: 0 <= i < |entries[1..]| ==> entries[1..][i] == entries[i + 1];
      r
  }

  /** `getProjectData(name)`: the project of that name in the current language, if any. */
  function ProjectData(env: Env, name: string): (r: Option<Project>)
    ensures r.Some? ==> Section(env.projects, env.Lang()).Some?
    ensures r.Some? <==>
      (Section(env.projects, env.Lang()).Some? &&
       exists i :: 0 <= i < |Section(env.projects, env.Lang()).value| && Section(env.projects, env.Lang()).value[i].name == name)
    ensures r.Some? ==>
      exists i :: 0 <= i < |Section(env.projects, env.Lang()).value| &&
        Section(env.projects, env.Lang()).value[i] == ProjectEntry(name, r.value)
  {
    match Section(env.projects, env.Lang())
    case None => None
    case Some(entries) => FindProject(entries, name)
  }
}
