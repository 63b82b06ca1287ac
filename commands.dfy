/**
 * The command table of the v2 terminal (v2/commands.js). Each command is a function from the
 * session before it to the session after it, given the bundles it reads (`XStep`), and a method
 * that runs it on a `Session` object in the source's own steps (`ExecuteX`), proved to agree.
 */
module Commands {
  import opened Wrappers
  import opened Strings
  import opened FileSystem
  import opened Bundles
  import opened Terminal

  // ---------------------------------------------------------------------------
  // pwd
  // ---------------------------------------------------------------------------

  /** What `pwd` prints: the home directory at the root, the home directory and the path elsewhere. */
  function PwdText(path: string): string {
    if path == "/" then Home else Home + path
  }

  function PwdStep(st: State): State {
    Emit(st, [PwdText(st.currentPath)], SuccessOutput)
  }

  /** `pwd` and the prompt name the same place: the home directory is shown as `~`. */
  lemma PromptAgreesWithPwd(path: string)
    ensures var rest := if path == "/" then "" else path;
      PwdText(path) == Home + rest && PromptText(path) == "developer@portfolio ~" + rest + " $"
  {
  }

  /** `pwd` prints exactly one line, the working directory under the home directory. */
  lemma PwdPrintsOneLine(st: State)
    ensures PwdStep(st).lineCount == st.lineCount + 1
    ensures PwdStep(st).output == st.output + [Line(st.lineCount, PwdText(st.currentPath), SuccessOutput)]
    ensures PwdStep(st).currentPath == st.currentPath
  {
  }

  method ExecutePwd(t: Session)
    modifies t
    ensures t.Snapshot() == PwdStep(old(t.Snapshot()))
  {
    var path := if t.currentPath == "/" then "/home/developer" else "/home/developer" + t.currentPath;
    t.AddOutput(Text(path), SuccessOutput);
  }

  // ---------------------------------------------------------------------------
  // whoami and wget cv.pdf
  // ---------------------------------------------------------------------------

  const WhoamiError := "Error cargando información"
  const WgetError := "Error descargando CV"

  /** `whoami`: the values of the language's section, or one error line. */
  function WhoamiStep(st: State, env: Env): State {
    match Section(env.whoami, env.Lang())
    case None => Emit(st, [WhoamiError], ErrorOutput)
    case Some(values) => Emit(st, values, InfoOutput)
  }

  /** `wget cv.pdf`: the values of the language's section, or one error line. */
  function WgetStep(st: State, env: Env): State {
    match Section(env.wget, env.Lang())
    case None => Emit(st, [WgetError], ErrorOutput)
    case Some(values) => Emit(st, values, SuccessOutput)
  }

  /** Both print the whole section when it is there, and a single error line when it is not. */
  lemma BundleCommandsPrintSection(st: State, env: Env)
    ensures Section(env.whoami, env.Lang()).None? ==>
      WhoamiStep(st, env).output == st.output + [Line(st.lineCount, WhoamiError, ErrorOutput)]
    ensures Section(env.whoami, env.Lang()).Some? ==>
      WhoamiStep(st, env).lineCount == st.lineCount + |env.whoami.value[env.Lang()]|
    ensures Section(env.wget, env.Lang()).None? ==>
      WgetStep(st, env).output == st.output + [Line(st.lineCount, WgetError, ErrorOutput)]
    ensures Section(env.wget, env.Lang()).Some? ==>
      WgetStep(st, env).lineCount == st.lineCount + |env.wget.value[env.Lang()]|
  {
  }

  method ExecuteWhoami(t: Session, env: Env)
    modifies t
    ensures t.Snapshot() == WhoamiStep(old(t.Snapshot()), env)
  {
    var data := Section(env.whoami, env.Lang());
    if data.None? {
      t.AddOutput(List([WhoamiError]), ErrorOutput);
      return;
    }
    t.AddOutput(List(data.value), InfoOutput);
  }

  method ExecuteWget(t: Session, env: Env)
    modifies t
    ensures t.Snapshot() == WgetStep(old(t.Snapshot()), env)
  {
    var data := Section(env.wget, env.Lang());
    if data.None? {
      t.AddOutput(List([WgetError]), ErrorOutput);
      return;
    }
    t.AddOutput(List(data.value), SuccessOutput);
  }

  // ---------------------------------------------------------------------------
  // ls -la
  // ---------------------------------------------------------------------------

  const NoDirectory := "ls: No such directory"
  const DotLine := "drwxr-xr-x  developer  staff    4096  ."
  const DotDotLine := "drwxr-xr-x  developer  staff    4096  .."

  /** The long-format line of one entry: size 4096 for a directory, 2048 for a project, 1024 for a file. */
  function LongLine(e: Entry): string {
    if e.node.Directory? then "drwxr-xr-x  developer  staff    4096  " + e.name + "/"
    else if e.node.Project? then "-rw-r--r--  developer  staff    2048  " + e.name
    else "-rw-r--r--  developer  staff    1024  " + e.name
  }

  function LongLines(files: seq<Entry>): (r: seq<string>)
    ensures |r| == |files|
    ensures forall i :: 0 <= i < |files| ==> r[i] == LongLine(files[i])
  {
    seq(|files|, i requires 0 <= i < |files| => LongLine(files[i]))
  }

  /** `ls -la` in the directory `dir` (the resolved current path). */
  function LongListing(st: State, dir: Option<Node>): State {
    if !IsDirectory(dir) then Emit(st, [NoDirectory], ErrorOutput)
    else Emit(st, [DotLine, DotDotLine] + LongLines(dir.value.files), SuccessOutput)
  }

  function LsLaStep(st: State): State {
    LongListing(st, Resolve(st.currentPath))
  }

  /**
   * `ls -la` prints `.` and `..` and then one line per entry, in order: 2 + (number of entries)
   * lines, so exactly the two synthetic lines for an empty directory; anything else gets one
   * error line.
   */
  lemma LongListingLines(st: State, dir: Option<Node>)
    ensures IsDirectory(dir) ==>
      var files := dir.value.files;
      var r := LongListing(st, dir);
      r.lineCount == st.lineCount + 2 + |files| &&
      r.output[|st.output|] == Line(st.lineCount, DotLine, SuccessOutput) &&
      r.output[|st.output| + 1] == Line(st.lineCount + 1, DotDotLine, SuccessOutput) &&
      forall i :: 0 <= i < |files| ==>
        r.output[|st.output| + 2 + i] == Line(st.lineCount + 2 + i, LongLine(files[i]), SuccessOutput)
    ensures !IsDirectory(dir) ==>
      LongListing(st, dir).output == st.output + [Line(st.lineCount, NoDirectory, ErrorOutput)]
  {
    if IsDirectory(dir) {
      var lines := [DotLine, DotDotLine] + LongLines(dir.value.files);
      var rows := Numbered(st.lineCount, lines, SuccessOutput);
      assert LongListing(st, dir).output == st.output + rows;
      forall i | 0 <= i < |dir.value.files|
        ensures (st.output + rows)[|st.output| + 2 + i] == Line(st.lineCount + 2 + i, LongLine(dir.value.files[i]), SuccessOutput)
      {
        assert rows[2 + i] == Line(st.lineCount + 2 + i, lines[2 + i], SuccessOutput);
      }
    }
  }

  /** The loop of `ls -la`: the two synthetic lines, then one long-format line per entry, in order. */
  method LongFormat(entries: seq<Entry>) returns (files: seq<string>)
    ensures files == [DotLine, DotDotLine] + LongLines(entries)
  {
    files := [DotLine, DotDotLine];
    for i := 0 to |entries|
      invariant files == [DotLine, DotDotLine] + LongLines(entries[..i])
    {
      assert LongLines(entries[..i + 1]) == LongLines(entries[..i]) + [LongLine(entries[i])];
      var item := entries[i];
      if item.node.Directory? {
        files := files + ["drwxr-xr-x  developer  staff    4096  " + item.name + "/"];
      } else if item.node.Project? {
        files := files + ["-rw-r--r--  developer  staff    2048  " + item.name];
      } else {
        files := files + ["-rw-r--r--  developer  staff    1024  " + item.name];
      }
    }
    assert entries[..|entries|] == entries;
  }

  method ExecuteLsLa(t: Session)
    modifies t
    ensures t.Snapshot() == LsLaStep(old(t.Snapshot()))
  {
    var currentDir := NavigatePath(t.currentPath);
    if !IsDirectory(currentDir) {
      t.AddOutput(Text(NoDirectory), ErrorOutput);
      return;
    }
    var files := LongFormat(currentDir.value.files);
    t.AddOutput(List(files), SuccessOutput);
  }


  // ---------------------------------------------------------------------------
  // ls
  // ---------------------------------------------------------------------------

  /** An entry as `ls` shows it: directories carry a trailing `/`. */
  function ShortName(e: Entry): string {
    if e.node.Directory? then e.name + "/" else e.name
  }

  function ShortNames(files: seq<Entry>): (r: seq<string>)
    ensures |r| == |files|
    ensures forall i :: 0 <= i < |files| ==> r[i] == ShortName(files[i])
  {
    seq(|files|, i requires 0 <= i < |files| => ShortName(files[i]))
  }

  /** `lsErrors?.noDir || "ls: No such directory"`. */
  function LsError(env: Env): string {
    OrElse(ErrorsOf(env).lsNoDir, NoDirectory)
  }

  /** `ls` in the directory `dir` (the resolved current path). */
  function ShortListing(st: State, env: Env, dir: Option<Node>): State {
    if !IsDirectory(dir) then Emit(st, [LsError(env)], ErrorOutput)
    else if |dir.value.files| > 0 then Emit(st, [Join(ShortNames(dir.value.files), "  ")], DirectoryOutput)
    else st
  }

  function LsStep(st: State, env: Env): State {
    ShortListing(st, env, Resolve(st.currentPath))
  }

  /**
   * `ls` prints one line naming every entry (two spaces apart, directories with `/`) for a
   * non-empty directory, nothing at all for an empty one, and one error line for anything else.
   */
  lemma ShortListingLines(st: State, env: Env, dir: Option<Node>)
    ensures IsDirectory(dir) && dir.value.files != [] ==>
      ShortListing(st, env, dir).output ==
        st.output + [Line(st.lineCount, Join(ShortNames(dir.value.files), "  "), DirectoryOutput)]
    ensures IsDirectory(dir) && dir.value.files == [] ==> ShortListing(st, env, dir) == st
    ensures !IsDirectory(dir) ==>
      ShortListing(st, env, dir).output == st.output + [Line(st.lineCount, LsError(env), ErrorOutput)]
  {
  }

  /** The names `ls` shows are those of `listFilesInDirectory`, directories marked with `/`. */
  lemma ShortNamesAreListing(path: string)
    requires IsDirectory(Resolve(path))
    ensures var files := Resolve(path).value.files;
      var names := ListFilesInDirectory(path);
      |ShortNames(files)| == |names| &&
      forall i :: 0 <= i < |names| ==>
        ShortNames(files)[i] == names[i] + (if files[i].node.Directory? then "/" else "")
  {
  }

  method ExecuteLs(t: Session, env: Env)
    modifies t
    ensures t.Snapshot() == LsStep(old(t.Snapshot()), env)
  {
    var lsErrors := ErrorsOf(env).lsNoDir;
    var currentDir := NavigatePath(t.currentPath);
    if !IsDirectory(currentDir) {
      t.AddOutput(Text(OrElse(lsErrors, "ls: No such directory")), ErrorOutput);
      return;
    }
    var files := ShortNames(currentDir.value.files);
    if |files| > 0 {
      t.AddOutput(Text(Join(files, "  ")), DirectoryOutput);
    }
  }

  // ---------------------------------------------------------------------------
  // cd
  // ---------------------------------------------------------------------------

  /** `parts.pop()`: drops the last element, if there is one. */
  function Pop(parts: seq<string>): (r: seq<string>)
    ensures parts == [] ==> r == []
    ensures parts != [] ==> r + [parts[|parts| - 1]] == parts
  {
    if parts == [] then [] else parts[..|parts| - 1]
  }

  /**
   * The path `cd` tries, from the trimmed argument: the root for none, the parent for `..`,
   * the argument itself when it starts with `/`, and otherwise the argument under the current
   * path. Nothing is normalised.
   */
  function CdTarget(current: string, path: string): string {
    if path == "" then "/"
    else if path == ".." then "/" + Join(Pop(Segments(current)), "/")
    else if StartsWith(path, "/") then path
    else if current == "/" then "/" + path
    else current + "/" + path
  }

  /** `cdErrors?.noDir?.replace("{path}", path) || `cd: No such directory: ${path}``. */
  function CdError(env: Env, path: string): string {
    var template := ErrorsOf(env).cdNoDir;
    OrElse(if template.Some? then Some(ReplaceFirst(template.value, "{path}", path)) else None,
           "cd: No such directory: " + path)
  }

  /**
   * `cd args`: moves to the target when it is a directory; otherwise prints one error line and
   * keeps the path it had. The prompt is redrawn either way.
   */
  function CdStep(st: State, env: Env, args: string): State {
    var path := Trim(args);
    var candidate := CdTarget(st.currentPath, path);
    if IsDirectory(Resolve(candidate)) then
      st.(currentPath := candidate, prompt := PromptText(candidate))
    else
      Emit(st, [CdError(env, path)], ErrorOutput).(prompt := PromptText(st.currentPath))
  }

  /** When the target is a directory, `cd` moves there, redraws the prompt and prints nothing. */
  lemma CdSucceeds(st: State, env: Env, args: string)
    requires IsDirectory(Resolve(CdTarget(st.currentPath, Trim(args))))
    ensures var target := CdTarget(st.currentPath, Trim(args));
      CdStep(st, env, args) == st.(currentPath := target, prompt := PromptText(target))
  {
  }

  /** Otherwise `cd` prints one error line naming the argument and keeps the path it had. */
  lemma CdFails(st: State, env: Env, args: string)
    requires !IsDirectory(Resolve(CdTarget(st.currentPath, Trim(args))))
    ensures CdStep(st, env, args) ==
      Emit(st, [CdError(env, Trim(args))], ErrorOutput).(prompt := PromptText(st.currentPath))
  {
  }

  /**
   * `cd` succeeds exactly when its target is a directory: then the path becomes the target and
   * nothing is printed; else the path is restored as it was and exactly one error line names
   * the argument.
   */
  lemma CdMovesOrRollsBack(st: State, env: Env, args: string)
    ensures var target := CdTarget(st.currentPath, Trim(args));
      var r := CdStep(st, env, args);
      (IsDirectory(Resolve(target)) ==> r.currentPath == target && r.output == st.output && r.lineCount == st.lineCount) &&
      (!IsDirectory(Resolve(target)) ==>
        r.currentPath == st.currentPath &&
        r.output == st.output + [Line(st.lineCount, CdError(env, Trim(args)), ErrorOutput)])
    ensures CdStep(st, env, args).prompt == PromptText(CdStep(st, env, args).currentPath)
    ensures CdStep(st, env, args).history == st.history
    ensures CdStep(st, env, args).historyIndex == st.historyIndex
    ensures CdStep(st, env, args).currentGallery == st.currentGallery
  {
    var target := CdTarget(st.currentPath, Trim(args));
    var r := CdStep(st, env, args);
    if IsDirectory(Resolve(target)) {
      CdSucceeds(st, env, args);
      assert r == st.(currentPath := target, prompt := PromptText(target));
    } else {
      CdFails(st, env, args);
      var line := CdError(env, Trim(args));
      assert Numbered(st.lineCount, [line], ErrorOutput) == [Line(st.lineCount, line, ErrorOutput)];
      assert r == Emit(st, [line], ErrorOutput).(prompt := PromptText(st.currentPath));
    }
  }

  /** After `cd`, whether it succeeded or not, the current path is still a directory. */
  lemma CdConsistent(st: State, env: Env, args: string)
    requires Consistent(st)
    ensures Consistent(CdStep(st, env, args))
  {
    if IsDirectory(Resolve(CdTarget(st.currentPath, Trim(args)))) {
      CdSucceeds(st, env, args);
    } else {
      CdFails(st, env, args);
      EmitConsistent(st, [CdError(env, Trim(args))], ErrorOutput);
    }
  }

  /** `cd ..` never fails from a directory: the parent of a directory is a directory. */
  lemma CdUpSucceeds(st: State, env: Env)
    requires Consistent(st)
    ensures CdStep(st, env, "..").currentPath == "/" + Join(Pop(Segments(st.currentPath)), "/")
    ensures CdStep(st, env, "..").output == st.output
  {
    var segs := Segments(st.currentPath);
    CdUpTarget(st.currentPath);
    ResolveIsWalk(st.currentPath);
    WalkPrefixIsDirectory(Root(), segs, |Pop(segs)|);
    assert segs[..|Pop(segs)|] == Pop(segs);
    ResolveParent(Pop(segs));
    CdSucceeds(st, env, "..");
  }

  lemma CdUpTarget(current: string)
    ensures CdTarget(current, Trim("..")) == "/" + Join(Pop(Segments(current)), "/")
  {
    TrimUntouched("..");
  }

  /** `cd ..` at the root stays at the root. */
  lemma CdUpAtRoot(st: State, env: Env)
    requires Consistent(st) && st.currentPath == "/"
    ensures CdStep(st, env, "..").currentPath == "/"
    ensures CdStep(st, env, "..").output == st.output
  {
    CdUpSucceeds(st, env);
    RootHasNoParent(st.currentPath);
  }

  lemma RootHasNoParent(p: string)
    requires p == "/"
    ensures "/" + Join(Pop(Segments(p)), "/") == "/"
  {
    SegmentsLeadingSlash("");
    SegmentsOfEmpty();
    assert p == "/" + "";
  }

  /**
   * `cd P` to an absolute path that names a directory, then `pwd`, prints P under the home
   * directory, spelled exactly as typed (a trailing `/` stays).
   */
  lemma CdThenPwd(st: State, env: Env, p: string)
    requires StartsWith(p, "/") && !IsSpace(p[|p| - 1])
    requires IsDirectory(Resolve(p))
    ensures CdStep(st, env, p).currentPath == p
    ensures var r := PwdStep(CdStep(st, env, p));
      r.output == st.output + [Line(st.lineCount, PwdText(p), SuccessOutput)] &&
      PwdText(p) == if p == "/" then Home else Home + p
  {
    CdAbsoluteTarget(st.currentPath, p);
    CdSucceeds(st, env, p);
    var moved := CdStep(st, env, p);
    assert moved == st.(currentPath := p, prompt := PromptText(p));
    assert moved.output == st.output && moved.lineCount == st.lineCount && moved.currentPath == p;
    assert PwdStep(moved) == Emit(moved, [PwdText(p)], SuccessOutput);
  }

  lemma CdAbsoluteTarget(current: string, p: string)
    requires StartsWith(p, "/") && !IsSpace(p[|p| - 1])
    ensures CdTarget(current, Trim(p)) == p
  {
    TrimUntouched(p);
    var path := Trim(p);
    assert path == p;
    assert path != "" && path != ".." && StartsWith(path, "/");
  }

  /** A relative name at the root is tried as `/name`; below the root, under the current path. */
  lemma CdRelativeTarget(current: string, name: string)
    requires name != "" && name != ".." && !StartsWith(name, "/")
    ensures CdTarget(current, name) == if current == "/" then "/" + name else current + "/" + name
  {
  }

  /**
   * An absolute directory path written with a trailing slash (`cd /projects/`, which resolves by
   * `FileSystem.ProjectsSpellings`) is stored as typed, slash and all, and `pwd` shows it so.
   */
  lemma CdKeepsTrailingSlash(st: State, env: Env, p: string)
    requires |p| > 1 && StartsWith(p, "/") && p[|p| - 1] == '/'
    requires IsDirectory(Resolve(p))
    ensures CdStep(st, env, p).currentPath == p
    ensures PwdText(p) == Home + p
  {
    CdThenPwd(st, env, p);
  }

  /** The first half of `cd`: the current path is set to the target before it is checked. */
  method MoveToTarget(t: Session, path: string)
    modifies t
    ensures t.Snapshot() == old(t.Snapshot()).(currentPath := CdTarget(old(t.currentPath), path))
  {
    if path == "" {
      t.currentPath := "/";
    } else if path == ".." {
      var parts := Segments(t.currentPath);
      if parts != [] {
        parts := parts[..|parts| - 1];
      }
      t.currentPath := "/" + Join(parts, "/");
    } else if StartsWith(path, "/") {
      t.currentPath := path;
    } else {
      t.currentPath := if t.currentPath == "/" then "/" + path else t.currentPath + "/" + path;
    }
  }

  method ExecuteCd(t: Session, env: Env, args: string)
    modifies t
    ensures t.Snapshot() == CdStep(old(t.Snapshot()), env, args)
  {
    var cdErrors := ErrorsOf(env).cdNoDir;
    var path := Trim(args);
    var previousPath := t.currentPath;
    ghost var before := t.Snapshot();
    ghost var target := CdTarget(previousPath, path);
    MoveToTarget(t, path);
    var dir := NavigatePath(t.currentPath);
    if !IsDirectory(dir) {
      CdFails(before, env, args);
      var msg := OrElse(if cdErrors.Some? then Some(ReplaceFirst(cdErrors.value, "{path}", path)) else None,
                        "cd: No such directory: " + path);
      assert msg == CdError(env, path);
      ghost var moved := t.Snapshot();
      assert moved == before.(currentPath := target);
      t.AddOutput(Text(msg), ErrorOutput);
      ghost var printed := t.Snapshot();
      assert printed == Emit(moved, [msg], ErrorOutput);
      t.currentPath := previousPath;
      assert t.Snapshot() == printed.(currentPath := previousPath);
      EmitCommutesWithPath(before, target, [msg], ErrorOutput);
      assert t.Snapshot() == Emit(before, [msg], ErrorOutput);
      t.UpdatePrompt();
    } else {
      CdSucceeds(before, env, args);
      t.UpdatePrompt();
    }
  }



  // ---------------------------------------------------------------------------
  // cat
  // ---------------------------------------------------------------------------

  /** The three text files `cat` can print. */
  predicate IsTextFile(path: string) {
    path == "bio.txt" || path == "skills.txt" || path == "contact.txt"
  }

  /** `contentMap[path]`: the content of one of the three text files, nothing for any other name. */
  function ContentMap(env: Env, path: string): (r: Option<string>)
    ensures r.Some? <==> IsTextFile(path)
    ensures r.Some? ==> r.value != ""
  {
    if IsTextFile(path) then Some(FileContent(env, path)) else None
  }

  /** The error for `cat` without an argument (the `noFile` template as it is). */
  function NoFileSpecified(env: Env): string {
    OrElse(ErrorsOf(env).catNoFile, "cat: No file specified")
  }

  /** The error for a name `cat` cannot print, with `{file}` replaced by the name. */
  function NoSuchFile(env: Env, path: string): string {
    ReplaceFirst(OrElse(ErrorsOf(env).catNoFile, "cat: {file}: No such file"), "{file}", path)
  }

  /**
   * `cat args`: from `/projects` any name of a project opens its gallery; so does
   * `projects/NAME` from anywhere; otherwise one of the three text files is printed as one line,
   * and anything else gets one error line.
   */
  function CatStep(st: State, env: Env, args: string): State {
    var path := Trim(args);
    if path == "" then Emit(st, [NoFileSpecified(env)], ErrorOutput)
    else CatName(st, env, path)
  }

  /** `cat` with a name: a project of `/projects`, then a `projects/NAME` path, then a text file. */
  function CatName(st: State, env: Env, path: string): State {
    if st.currentPath == "/projects" && ProjectData(env, path).Some? then
      OpenGallery(st, path, ProjectData(env, path).value, env.pagePath)
    else
      CatPath(st, env, path)
  }

  function CatPath(st: State, env: Env, path: string): State {
    if StartsWith(path, "projects/") && ProjectData(env, ReplaceFirst(path, "projects/", "")).Some? then
      var name := ReplaceFirst(path, "projects/", "");
      OpenGallery(st, name, ProjectData(env, name).value, env.pagePath)
    else
      CatFile(st, env, path)
  }

  function CatFile(st: State, env: Env, path: string): State {
    if ContentMap(env, path).Some? then Emit(st, [ContentMap(env, path).value], SuccessOutput)
    else Emit(st, [NoSuchFile(env, path)], ErrorOutput)
  }

  /**
   * The effect every branch of `cat` shares: one numbered row after the rows already there;
   * path, history and input untouched.
   */
  predicate AddsOneRow(st: State, r: State) {
    && r.lineCount == st.lineCount + 1
    && |r.output| == |st.output| + 1
    && r.output[..|st.output|] == st.output
    && r.currentPath == st.currentPath
    && r.history == st.history
    && r.historyIndex == st.historyIndex
    && r.input == st.input
  }

  lemma CatFileAddsOneRow(st: State, env: Env, path: string)
    ensures AddsOneRow(st, CatFile(st, env, path))
  {
  }

  lemma CatPathAddsOneRow(st: State, env: Env, path: string)
    ensures AddsOneRow(st, CatPath(st, env, path))
  {
    CatFileAddsOneRow(st, env, path);
  }

  lemma CatNameAddsOneRow(st: State, env: Env, path: string)
    ensures AddsOneRow(st, CatName(st, env, path))
  {
    CatPathAddsOneRow(st, env, path);
  }

  /** `cat` adds exactly one numbered row (a line or a gallery block) and leaves path and history alone. */
  lemma CatKeepsSession(st: State, env: Env, args: string)
    ensures AddsOneRow(st, CatStep(st, env, args))
  {
    if Trim(args) == "" {
      assert CatStep(st, env, args) == Emit(st, [NoFileSpecified(env)], ErrorOutput);
    } else {
      CatNameAddsOneRow(st, env, Trim(args));
    }
  }

  /** `cat` with nothing after it prints the one "no file specified" error line. */
  lemma CatWithoutName(st: State, env: Env, args: string)
    requires Trim(args) == ""
    ensures CatStep(st, env, args) == Emit(st, [NoFileSpecified(env)], ErrorOutput)
  {
  }

  /** With a name, `cat` goes on to the name stage. */
  lemma CatNamed(st: State, env: Env, args: string)
    requires Trim(args) != ""
    ensures CatStep(st, env, args) == CatName(st, env, Trim(args))
  {
  }

  /** A name that is not a project of the current `/projects` directory goes on to the path stage. */
  lemma CatNameFallsThrough(st: State, env: Env, path: string)
    requires !(st.currentPath == "/projects" && ProjectData(env, path).Some?)
    ensures CatName(st, env, path) == CatPath(st, env, path)
  {
  }

  /** A path that is not `projects/` followed by a project goes on to the file stage. */
  lemma CatPathFallsThrough(st: State, env: Env, path: string)
    requires !(StartsWith(path, "projects/") && ProjectData(env, path[9..]).Some?)
    ensures CatPath(st, env, path) == CatFile(st, env, path)
  {
    if StartsWith(path, "projects/") {
      ReplacePrefix(path, "projects/");
    }
  }

  /** From `/projects`, the name of a project opens that project's gallery at its first image. */
  lemma CatOpensProjectHere(st: State, env: Env, args: string)
    requires Trim(args) != "" && st.currentPath == "/projects" && ProjectData(env, Trim(args)).Some?
    ensures var p := ProjectData(env, Trim(args)).value;
      CatStep(st, env, args).currentGallery ==
        Some(Gallery(Trim(args), 0, ImagePaths(p.images, env.pagePath), |p.images|))
  {
    CatNamed(st, env, args);
  }

  /**
   * Elsewhere (or for a name that is not a project there), `projects/NAME` opens the gallery of
   * project NAME when there is one.
   */
  lemma CatOpensProjectPath(st: State, env: Env, args: string)
    requires Trim(args) != "" && !(st.currentPath == "/projects" && ProjectData(env, Trim(args)).Some?)
    requires StartsWith(Trim(args), "projects/")
    requires ProjectData(env, Trim(args)[9..]).Some?
    ensures var name := Trim(args)[9..];
      var p := ProjectData(env, name).value;
      CatStep(st, env, args).currentGallery == Some(Gallery(name, 0, ImagePaths(p.images, env.pagePath), |p.images|))
  {
    CatNamed(st, env, args);
    CatNameFallsThrough(st, env, Trim(args));
    ReplacePrefix(Trim(args), "projects/");
  }

  /** A name that opens no gallery and is none of the three text files gets one "no such file" line. */
  lemma CatUnknownName(st: State, env: Env, args: string)
    requires Trim(args) != "" && !(st.currentPath == "/projects" && ProjectData(env, Trim(args)).Some?)
    requires !(StartsWith(Trim(args), "projects/") && ProjectData(env, Trim(args)[9..]).Some?)
    requires !IsTextFile(Trim(args))
    ensures CatStep(st, env, args) == Emit(st, [NoSuchFile(env, Trim(args))], ErrorOutput)
  {
    CatNamed(st, env, args);
    CatNameFallsThrough(st, env, Trim(args));
    CatPathFallsThrough(st, env, Trim(args));
  }

  /** `cat` keeps the session consistent: a gallery it opens starts at its first image. */
  lemma CatConsistent(st: State, env: Env, args: string)
    requires Consistent(st)
    ensures Consistent(CatStep(st, env, args))
  {
    if Trim(args) == "" {
      EmitConsistent(st, [NoFileSpecified(env)], ErrorOutput);
    } else {
      CatNamed(st, env, args);
      CatNameConsistent(st, env, Trim(args));
    }
  }

  lemma CatNameConsistent(st: State, env: Env, path: string)
    requires Consistent(st)
    ensures Consistent(CatName(st, env, path))
  {
    if st.currentPath == "/projects" && ProjectData(env, path).Some? {
      OpenGalleryConsistent(st, path, ProjectData(env, path).value, env.pagePath);
    } else {
      CatPathConsistent(st, env, path);
    }
  }

  lemma CatPathConsistent(st: State, env: Env, path: string)
    requires Consistent(st)
    ensures Consistent(CatPath(st, env, path))
  {
    var name := ReplaceFirst(path, "projects/", "");
    if StartsWith(path, "projects/") && ProjectData(env, name).Some? {
      OpenGalleryConsistent(st, name, ProjectData(env, name).value, env.pagePath);
    } else {
      CatFileConsistent(st, env, path);
    }
  }

  lemma CatFileConsistent(st: State, env: Env, path: string)
    requires Consistent(st)
    ensures Consistent(CatFile(st, env, path))
  {
    if ContentMap(env, path).Some? {
      EmitConsistent(st, [ContentMap(env, path).value], SuccessOutput);
    } else {
      EmitConsistent(st, [NoSuchFile(env, path)], ErrorOutput);
    }
  }

  /**
   * The three text files print their content as one line, a fallback text when the content is
   * missing, unless the name is also a project of the current `/projects` directory.
   */
  lemma CatTextFilesPrint(st: State, env: Env, name: string)
    requires IsTextFile(name)
    requires st.currentPath != "/projects" || ProjectData(env, name).None?
    ensures CatStep(st, env, name) == Emit(st, [FileContent(env, name)], SuccessOutput)
    ensures FileContent(env, name) != ""
  {
    TrimUntouched(name);
    CatNamed(st, env, name);
    CatNameFallsThrough(st, env, name);
    TextFilesAreNotProjectPaths(name);
    CatPathFallsThrough(st, env, name);
    assert CatFile(st, env, name) == Emit(st, [FileContent(env, name)], SuccessOutput);
  }

  lemma TextFilesAreNotProjectPaths(name: string)
    requires IsTextFile(name)
    ensures !StartsWith(name, "projects/")
  {
    assert name[0] != 'p';
  }

  method ExecuteCat(t: Session, env: Env, args: string)
    modifies t
    ensures t.Snapshot() == CatStep(old(t.Snapshot()), env, args)
  {
    var path := Trim(args);
    if path == "" {
      t.AddOutput(Text(OrElse(ErrorsOf(env).catNoFile, "cat: No file specified")), ErrorOutput);
      return;
    }
    if t.currentPath == "/projects" {
      var projectData := ProjectData(env, path);
      if projectData.Some? {
        t.DisplayProjectGallery(path, projectData.value, env.pagePath);
        return;
      }
    }
    if StartsWith(path, "projects/") {
      var projectName := ReplaceFirst(path, "projects/", "");
      var projectData := ProjectData(env, projectName);
      if projectData.Some? {
        t.DisplayProjectGallery(projectName, projectData.value, env.pagePath);
        return;
      }
    }
    var content := ContentMap(env, path);
    if content.Some? && content.value != "" {
      t.AddOutput(Text(content.value), SuccessOutput);
      return;
    }
    var template := OrElse(ErrorsOf(env).catNoFile, "cat: {file}: No such file");
    t.AddOutput(Text(ReplaceFirst(template, "{file}", path)), ErrorOutput);
  }

  // ---------------------------------------------------------------------------
  // cat projects
  // ---------------------------------------------------------------------------

  /**
   * The line printed instead when the `errors` bundle has no `catProjects` texts; the source
   * fails there with an unhandled lookup.
   */
  const MissingCatalogue := "cat projects: catalogue texts not available"

  const Folder := "\U{1F4C1} "

  /** The four lines of one project: title, description, the gallery hint, a blank line. */
  function ProjectLines(e: ProjectEntry, seeGallery: string): seq<string> {
    [Folder + e.project.title, "   " + e.project.description, ReplaceFirst(seeGallery, "{name}", e.name), ""]
  }

  /** The lines of all projects, in catalogue order. */
  function Catalogue(entries: seq<ProjectEntry>, seeGallery: string): (r: seq<string>)
    ensures |r| == 4 * |entries|
  {
    if entries == [] then []
    else Catalogue(entries[..|entries| - 1], seeGallery) + ProjectLines(entries[|entries| - 1], seeGallery)
  }

  /** The `k`-th block of four lines belongs to the `k`-th project. */
  lemma {:induction false} CatalogueAt(entries: seq<ProjectEntry>, seeGallery: string, k: nat)
    requires k < |entries|
    ensures Catalogue(entries, seeGallery)[4 * k..4 * k + 4] == ProjectLines(entries[k], seeGallery)
  {
    var init := entries[..|entries| - 1];
    if k < |entries| - 1 {
      CatalogueAt(init, seeGallery, k);
      assert Catalogue(entries, seeGallery)[4 * k..4 * k + 4] == Catalogue(init, seeGallery)[4 * k..4 * k + 4];
    }
  }

  /** `cat projects`: the catalogue between two separator lines. */
  function CatProjectsStep(st: State, env: Env): State {
    match ErrorsOf(env).catProjects
    case None => Emit(st, [MissingCatalogue], ErrorOutput)
    case Some(text) =>
      var entries := Section(env.projects, env.Lang()).GetOr([]);
      Emit(st, [text.separator] + Catalogue(entries, text.seeGallery) + [text.separator], InfoOutput)
  }

  /**
   * `cat projects` prints 2 + 4 * (number of projects) lines, opening and closing with the
   * separator, and no project at all when the catalogue is missing.
   */
  lemma CatProjectsFrame(st: State, env: Env)
    requires ErrorsOf(env).catProjects.Some?
    ensures var text := ErrorsOf(env).catProjects.value;
      var n := |Section(env.projects, env.Lang()).GetOr([])|;
      var r := CatProjectsStep(st, env);
      r.lineCount == st.lineCount + 2 + 4 * n &&
      r.output[|st.output|] == Line(st.lineCount, text.separator, InfoOutput) &&
      r.output[|r.output| - 1] == Line(st.lineCount + 1 + 4 * n, text.separator, InfoOutput)
  {
  }

  /** The loop of `cat projects`: four lines per project, in order, after the opening separator. */
  method CatalogueLines(separator: string, entries: seq<ProjectEntry>, seeGallery: string)
    returns (output: seq<string>)
    ensures output == [separator] + Catalogue(entries, seeGallery)
  {
    output := [separator];
    for i := 0 to |entries|
      invariant output == [separator] + Catalogue(entries[..i], seeGallery)
    {
      assert entries[..i + 1][..i] == entries[..i];
      var entry := entries[i];
      output := output + [Folder + entry.project.title];
      output := output + ["   " + entry.project.description];
      output := output + [ReplaceFirst(seeGallery, "{name}", entry.name)];
      output := output + [""];
    }
    assert entries[..|entries|] == entries;
  }

  method ExecuteCatProjects(t: Session, env: Env)
    modifies t
    ensures t.Snapshot() == CatProjectsStep(old(t.Snapshot()), env)
  {
    var catErrors := ErrorsOf(env).catProjects;
    if catErrors.None? {
      t.AddOutput(Text(MissingCatalogue), ErrorOutput);
      return;
    }
    var output := [catErrors.value.separator];
    var projectsData := Section(env.projects, env.Lang());
    if projectsData.Some? {
      output := CatalogueLines(catErrors.value.separator, projectsData.value, catErrors.value.seeGallery);
    }
    output := output + [catErrors.value.separator];
    t.AddOutput(List(output), InfoOutput);
  }


  // ---------------------------------------------------------------------------
  // skills --all and contact
  // ---------------------------------------------------------------------------

  /** `skills --all`: the skills text, one row per line. */
  function SkillsAllStep(st: State, env: Env): State {
    Emit(st, Split(FileContent(env, "skills.txt"), '\n'), InfoOutput)
  }

  /** `contact`: the contact text, one row per line. */
  function ContactStep(st: State, env: Env): State {
    Emit(st, Split(FileContent(env, "contact.txt"), '\n'), SuccessOutput)
  }

  /**
   * The rows a text is printed as hold no line break and, joined with line breaks, give back the
   * text: nothing of the file is lost or reordered.
   */
  lemma PrintedLinesRebuildText(st: State, env: Env, name: string, style: Style)
    ensures var lines := Split(FileContent(env, name), '\n');
      var r := Emit(st, lines, style);
      r.lineCount == st.lineCount + |lines| && |lines| >= 1 &&
      Join(lines, "\n") == FileContent(env, name) &&
      forall i :: 0 <= i < |lines| ==> '\n' !in lines[i]
  {
    JoinSplit(FileContent(env, name), '\n');
  }

  method ExecuteSkillsAll(t: Session, env: Env)
    modifies t
    ensures t.Snapshot() == SkillsAllStep(old(t.Snapshot()), env)
  {
    var content := FileContent(env, "skills.txt");
    t.AddOutput(List(Split(content, '\n')), InfoOutput);
  }

  method ExecuteContact(t: Session, env: Env)
    modifies t
    ensures t.Snapshot() == ContactStep(old(t.Snapshot()), env)
  {
    var content := FileContent(env, "contact.txt");
    t.AddOutput(List(Split(content, '\n')), SuccessOutput);
  }

  // ---------------------------------------------------------------------------
  // help
  // ---------------------------------------------------------------------------

  /** The line printed instead when the `availableCommands` bundle is missing (the source throws). */
  const HelpUnavailable := "help: command list not available"

  /** The rule above and below the help listing: 39 double bars. */
  const Rule := "═══════════════════════════════════════"

  /** One entry line of `help`: the command, padded so that every dash sits in column 17, and its description. */
  function Entry(name: string, description: string): string
    requires |name| < 17
  {
    name + Repeat(' ', 17 - |name|) + "- " + description
  }

  /** An entry line begins with its command and a space, hence with every prefix of those. */
  lemma EntryHead(name: string, description: string, p: string)
    requires |name| < 17 && StartsWith(name + " ", p)
    ensures StartsWith(Entry(name, description), p)
  {
    var e := Entry(name, description);
    forall k | 0 <= k < |p|
      ensures e[k] == p[k]
    {
      assert p[k] == (name + " ")[k];
    }
  }

  /** The help listing: a title between rules, one line per command, a closing rule. */
  function HelpLines(h: HelpText): (r: seq<string>)
    ensures |r| == 16
    ensures r[0] == r[2] == r[15] == Rule && r[1] == h.helpTitle
  {
    [Rule, h.helpTitle, Rule,
     Entry("pwd", h.pwd),
     Entry("whoami", h.whoami),
     Entry("ls", h.ls),
     Entry("ls -la", h.lsLa),
     Entry("cd <dir>", h.cd),
     Entry("cd ..", h.cdBack),
     Entry("cat <archivo>", h.cat),
     Entry("skills --all", h.skillsAll),
     Entry("contact", h.contact),
     Entry("wget cv.pdf", h.wget),
     Entry("clear", h.clear),
     Entry("help", h.help),
     Rule]
  }

  function HelpStep(st: State, env: Env): State {
    match Section(env.availableCommands, env.Lang())
    case None => Emit(st, [HelpUnavailable], ErrorOutput)
    case Some(h) => Emit(st, HelpLines(h), InfoOutput)
  }

  method ExecuteHelp(t: Session, env: Env)
    modifies t
    ensures t.Snapshot() == HelpStep(old(t.Snapshot()), env)
  {
    var cmds := Section(env.availableCommands, env.Lang());
    if cmds.None? {
      t.AddOutput(Text(HelpUnavailable), ErrorOutput);
      return;
    }
    t.AddOutput(List(HelpLines(cmds.value)), InfoOutput);
  }

  // ---------------------------------------------------------------------------
  // clear
  // ---------------------------------------------------------------------------

  /** `clear`: an empty terminal body and the numbering back at 0. */
  function ClearStep(st: State): State {
    st.(output := [], lineCount := 0)
  }

  /** After `clear` the next printed line is the only row and carries number 0. */
  lemma ClearRestartsNumbering(st: State, text: string, style: Style)
    ensures Emit(ClearStep(st), [text], style).output == [Line(0, text, style)]
    ensures ClearStep(st).(output := st.output, lineCount := st.lineCount) == st
  {
  }

  method ExecuteClear(t: Session)
    modifies t
    ensures t.Snapshot() == ClearStep(old(t.Snapshot()))
  {
    t.output := [];
    t.lineCount := 0;
  }

  // ---------------------------------------------------------------------------
  // The table
  // ---------------------------------------------------------------------------

  /** The entries of the `commands` object. */
  datatype Command = Pwd | Whoami | LsLa | Ls | Cd | Cat | CatProjects | SkillsAll | Contact | Wget | Help | Clear

  /** The `commands` object, by its own keys. */
  const Table: map<string, Command> := map[
    "pwd" := Pwd, "whoami" := Whoami, "ls -la" := LsLa, "ls" := Ls, "cd" := Cd, "cat" := Cat,
    "cat projects" := CatProjects, "skills --all" := SkillsAll, "contact" := Contact,
    "wget cv.pdf" := Wget, "help" := Help, "clear" := Clear]

  /** The key a command is filed under in the table. */
  function KeyOf(c: Command): (key: string)
    ensures key in Table && Table[key] == c
  {
    match c
    case Pwd => "pwd"
    case Whoami => "whoami"
    case LsLa => "ls -la"
    case Ls => "ls"
    case Cd => "cd"
    case Cat => "cat"
    case CatProjects => "cat projects"
    case SkillsAll => "skills --all"
    case Contact => "contact"
    case Wget => "wget cv.pdf"
    case Help => "help"
    case Clear => "clear"
  }

  /** The entry lines of `help`, in order. */
  lemma HelpEntries(h: HelpText)
    ensures var r := HelpLines(h);
      && r[3] == Entry("pwd", h.pwd) && r[4] == Entry("whoami", h.whoami)
      && r[5] == Entry("ls", h.ls) && r[6] == Entry("ls -la", h.lsLa)
      && r[7] == Entry("cd <dir>", h.cd) && r[9] == Entry("cat <archivo>", h.cat)
      && r[10] == Entry("skills --all", h.skillsAll) && r[11] == Entry("contact", h.contact)
      && r[12] == Entry("wget cv.pdf", h.wget) && r[13] == Entry("clear", h.clear)
      && r[14] == Entry("help", h.help)
  {
  }

  /** `help` names every command of the table but `cat projects` at the head of one of its entry lines. */
  lemma HelpListsTable(h: HelpText, c: Command)
    requires c != CatProjects
    ensures exists i :: 3 <= i < 15 && StartsWith(HelpLines(h)[i], KeyOf(c) + " ")
  {
    HelpEntries(h);
    var r := HelpLines(h);
    match c
    case Pwd => EntryHead("pwd", h.pwd, KeyOf(c) + " "); assert StartsWith(r[3], KeyOf(c) + " ");
    case Whoami => EntryHead("whoami", h.whoami, KeyOf(c) + " "); assert StartsWith(r[4], KeyOf(c) + " ");
    case Ls => EntryHead("ls", h.ls, KeyOf(c) + " "); assert StartsWith(r[5], KeyOf(c) + " ");
    case LsLa => EntryHead("ls -la", h.lsLa, KeyOf(c) + " "); assert StartsWith(r[6], KeyOf(c) + " ");
    case Cd => EntryHead("cd <dir>", h.cd, KeyOf(c) + " "); assert StartsWith(r[7], KeyOf(c) + " ");
    case Cat => EntryHead("cat <archivo>", h.cat, KeyOf(c) + " "); assert StartsWith(r[9], KeyOf(c) + " ");
    case SkillsAll =>
      EntryHead("skills --all", h.skillsAll, KeyOf(c) + " "); assert StartsWith(r[10], KeyOf(c) + " ");
    case Contact => EntryHead("contact", h.contact, KeyOf(c) + " "); assert StartsWith(r[11], KeyOf(c) + " ");
    case Wget => EntryHead("wget cv.pdf", h.wget, KeyOf(c) + " "); assert StartsWith(r[12], KeyOf(c) + " ");
    case Clear => EntryHead("clear", h.clear, KeyOf(c) + " "); assert StartsWith(r[13], KeyOf(c) + " ");
    case Help => EntryHead("help", h.help, KeyOf(c) + " "); assert StartsWith(r[14], KeyOf(c) + " ");
  }

  /** No entry line of `help` mentions `cat projects`. */
  lemma HelpOmitsCatProjects(h: HelpText)
    ensures forall i :: 3 <= i < 15 ==> !StartsWith(HelpLines(h)[i], "cat projects")
  {
    var r := HelpLines(h);
    forall i | 3 <= i < 15
      ensures !StartsWith(r[i], "cat projects")
    {
      // the second and fifth characters of an entry line already differ from `cat projects`
      assert r[i][1] != 'a' || r[i][4] != 'p';
    }
  }

  /** `commands[c].execute(args)`; the commands other than `cd` and `cat` ignore their argument. */
  function Run(st: State, env: Env, c: Command, args: string): State {
    match c
    case Pwd => PwdStep(st)
    case Whoami => WhoamiStep(st, env)
    case LsLa => LsLaStep(st)
    case Ls => LsStep(st, env)
    case Cd => CdStep(st, env, args)
    case Cat => CatStep(st, env, args)
    case CatProjects => CatProjectsStep(st, env)
    case SkillsAll => SkillsAllStep(st, env)
    case Contact => ContactStep(st, env)
    case Wget => WgetStep(st, env)
    case Help => HelpStep(st, env)
    case Clear => ClearStep(st)
  }

  /** No command touches the history or the input line, and only `cd` changes the current path. */
  lemma RunKeepsHistory(st: State, env: Env, c: Command, args: string)
    ensures Run(st, env, c, args).history == st.history
    ensures Run(st, env, c, args).historyIndex == st.historyIndex
    ensures Run(st, env, c, args).input == st.input
    ensures c != Cd ==> Run(st, env, c, args).currentPath == st.currentPath
  {
    match c {
      case Cd => CdMovesOrRollsBack(st, env, args);
      case Cat => CatKeepsSession(st, env, args);
      case _ =>
    }
  }

  /** Only `clear` takes rows off the screen: every other command leaves the rows there as they were. */
  lemma RunExtendsOutput(st: State, env: Env, c: Command, args: string)
    requires c != Clear
    ensures st.output <= Run(st, env, c, args).output
  {
    match c {
      case Cd => CdMovesOrRollsBack(st, env, args);
      case Cat =>
        CatKeepsSession(st, env, args);
        var r := Run(st, env, c, args);
        assert r.output[..|st.output|] == st.output;
      case _ =>
    }
  }

  /** `commands.x.execute(args)` for any x but `cd` and `cat` does not look at `args`. */
  lemma RunIgnoresArgs(st: State, env: Env, c: Command, a: string, b: string)
    requires c != Cd && c != Cat
    ensures Run(st, env, c, a) == Run(st, env, c, b)
  {
  }

  /** Every command keeps the session consistent. */
  lemma RunConsistent(st: State, env: Env, c: Command, args: string)
    requires Consistent(st)
    ensures Consistent(Run(st, env, c, args))
  {
    match c {
      case Cd => CdConsistent(st, env, args);
      case Cat => CatConsistent(st, env, args);
      case Pwd =>
        assert Run(st, env, c, args) == Emit(st, [PwdText(st.currentPath)], SuccessOutput);
        EmitConsistent(st, [PwdText(st.currentPath)], SuccessOutput);
      case LsLa =>
        var dir := Resolve(st.currentPath);
        if IsDirectory(dir) {
          EmitConsistent(st, [DotLine, DotDotLine] + LongLines(dir.value.files), SuccessOutput);
        } else {
          EmitConsistent(st, [NoDirectory], ErrorOutput);
        }
      case Ls =>
        var dir := Resolve(st.currentPath);
        if IsDirectory(dir) && |dir.value.files| > 0 {
          EmitConsistent(st, [Join(ShortNames(dir.value.files), "  ")], DirectoryOutput);
        } else if !IsDirectory(dir) {
          EmitConsistent(st, [LsError(env)], ErrorOutput);
        }
      case CatProjects =>
        match ErrorsOf(env).catProjects {
          case None =>
            EmitConsistent(st, [MissingCatalogue], ErrorOutput);
          case Some(text) =>
            var entries := Section(env.projects, env.Lang()).GetOr([]);
            EmitConsistent(st, [text.separator] + Catalogue(entries, text.seeGallery) + [text.separator], InfoOutput);
        }
      case Whoami =>
        match Section(env.whoami, env.Lang()) {
          case None => EmitConsistent(st, [WhoamiError], ErrorOutput);
          case Some(values) => EmitConsistent(st, values, InfoOutput);
        }
      case Wget =>
        match Section(env.wget, env.Lang()) {
          case None => EmitConsistent(st, [WgetError], ErrorOutput);
          case Some(values) => EmitConsistent(st, values, SuccessOutput);
        }
      case Help =>
        match Section(env.availableCommands, env.Lang()) {
          case None => EmitConsistent(st, [HelpUnavailable], ErrorOutput);
          case Some(h) => EmitConsistent(st, HelpLines(h), InfoOutput);
        }
      case SkillsAll =>
        EmitConsistent(st, Split(FileContent(env, "skills.txt"), '\n'), InfoOutput);
      case Contact =>
        EmitConsistent(st, Split(FileContent(env, "contact.txt"), '\n'), SuccessOutput);
      case Clear =>
    }
  }

  method Execute(t: Session, env: Env, c: Command, args: string)
    modifies t
    ensures t.Snapshot() == Run(old(t.Snapshot()), env, c, args)
  {
    match c
    case Pwd => ExecutePwd(t);
    case Whoami => ExecuteWhoami(t, env);
    case LsLa => ExecuteLsLa(t);
    case Ls => ExecuteLs(t, env);
    case Cd => ExecuteCd(t, env, args);
    case Cat => ExecuteCat(t, env, args);
    case CatProjects => ExecuteCatProjects(t, env);
    case SkillsAll => ExecuteSkillsAll(t, env);
    case Contact => ExecuteContact(t, env);
    case Wget => ExecuteWget(t, env);
    case Help => ExecuteHelp(t, env);
    case Clear => ExecuteClear(t);
  }
}
