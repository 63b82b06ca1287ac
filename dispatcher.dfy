/**
 * The input line of the v2 terminal: `executeCommand` (trim, echo, history, lookup in the
 * command table, "command not found") and the keydown handler (Enter, ArrowUp, ArrowDown).
 */
module Dispatcher {
  import opened Wrappers
  import opened Strings
  import opened Bundles
  import opened Terminal
  import opened Commands

  // ---------------------------------------------------------------------------
  // Looking a command line up
  // ---------------------------------------------------------------------------

  /** What the lookup settles on: a command of the table with its argument, or nothing. */
  datatype Invocation = Invoke(command: Command, args: string) | NotFound

  /** `cmd.split(" ")[0]`: everything before the first space. */
  function BaseCommand(cmd: string): string {
    Split(cmd, ' ')[0]
  }

  /** `parts.slice(1).join(" ")`: everything after the first space. */
  function Arguments(cmd: string): string {
    Join(Split(cmd, ' ')[1..], " ")
  }

  /**
   * The lookup of `executeCommand`: the whole line first (so `ls -la` and `cat projects` win over
   * `ls` and `cat`), then `cd` and `cat` with their argument, then any other first word; a whole
   * line is run without an argument.
   */
  function Dispatch(cmd: string): Invocation {
    if cmd in Table then Invoke(Table[cmd], "")
    else if BaseCommand(cmd) == "cd" then Invoke(Cd, Arguments(cmd))
    else if BaseCommand(cmd) == "cat" then Invoke(Cat, Arguments(cmd))
    else if BaseCommand(cmd) in Table then Invoke(Table[BaseCommand(cmd)], Arguments(cmd))
    else NotFound
  }

  /**
   * The `cd` and `cat` branches are the table's own entries for those words, so a line is
   * either a key of the table, run without an argument, or a first word of the table, run with
   * the rest; and nothing is found exactly when neither is a key.
   */
  lemma DispatchIsTableLookup(cmd: string)
    ensures Dispatch(cmd).NotFound? <==> cmd !in Table && BaseCommand(cmd) !in Table
    ensures cmd in Table ==> Dispatch(cmd) == Invoke(Table[cmd], "")
    ensures cmd !in Table && BaseCommand(cmd) in Table ==>
      Dispatch(cmd) == Invoke(Table[BaseCommand(cmd)], Arguments(cmd))
  {
  }

  /** A line is split at its first space: the word before it and everything after it, spaces kept. */
  lemma SplitCommandLine(word: string, rest: string)
    requires ' ' !in word
    ensures BaseCommand(word + " " + rest) == word
    ensures Arguments(word + " " + rest) == rest
  {
    assert word + " " + rest == word + [' '] + rest;
    SplitAtFirst(word, rest, ' ');
  }

  /** No key of the table starts with `cd ` or `cat `, except `cat projects` itself. */
  lemma NoKeyExtends(word: string, rest: string)
    requires word == "cd" || word == "cat"
    requires word + " " + rest != "cat projects"
    ensures word + " " + rest !in Table
  {
    var line := word + " " + rest;
    assert |line| > |word| && line[0] == 'c' && line[|word|] == ' ';
    assert word == "cd" ==> line[1] == 'd';
    assert word == "cat" ==> line[1] == 'a' && line[2] == 't';
  }

  /** `cd` followed by a space hands everything after that space to `cd`. */
  lemma DispatchCd(rest: string)
    ensures Dispatch("cd " + rest) == Invoke(Cd, rest)
  {
    assert "cd " + rest == "cd" + " " + rest;
    assert ("cd" + " " + rest)[1] == 'd';
    NoKeyExtends("cd", rest);
    SplitCommandLine("cd", rest);
  }

  /**
   * `cat` followed by a space hands everything after that space to `cat`, except for the line
   * `cat projects`, which is a command of its own.
   */
  lemma DispatchCat(rest: string)
    requires rest != "projects"
    ensures Dispatch("cat " + rest) == Invoke(Cat, rest)
  {
    assert "cat " + rest == "cat" + " " + rest;
    assert ("cat" + " " + rest)[4..] == rest;
    NoKeyExtends("cat", rest);
    SplitCommandLine("cat", rest);
  }

  /** `cat projects/lisa` is `cat` with the argument `projects/lisa`, not the catalogue. */
  lemma DispatchCatProjectPath(name: string)
    ensures Dispatch("cat projects/" + name) == Invoke(Cat, "projects/" + name)
  {
    assert "cat projects/" + name == "cat " + ("projects/" + name);
    assert ("projects/" + name)[8] == '/';
    DispatchCat("projects/" + name);
  }

  /** Any other first word of the table runs its command, whatever follows it. */
  lemma DispatchWithArguments(word: string, rest: string)
    requires word in Table && ' ' !in word && word != "cd" && word != "cat"
    requires word + " " + rest !in Table
    ensures Dispatch(word + " " + rest) == Invoke(Table[word], rest)
  {
    SplitCommandLine(word, rest);
  }

  // ---------------------------------------------------------------------------
  // executeCommand
  // ---------------------------------------------------------------------------

  /**
   * The error for a line nothing matches: the `commandNotFound` template with `{cmd}` replaced
   * by the line, or the built-in message when there is no template (or it is empty).
   */
  function NotFoundMessage(env: Env, cmd: string): (r: string)
    ensures ErrorsOf(env).commandNotFound.None? ==> r == "Comando no encontrado: '" + cmd + "'"
    ensures ErrorsOf(env).commandNotFound == Some("") ==> r == "Comando no encontrado: '" + cmd + "'"
    ensures var t := ErrorsOf(env).commandNotFound;
      t.Some? && t.value != "" && !Contains(t.value, "{cmd}") ==> r == t.value
    ensures var t := ErrorsOf(env).commandNotFound;
      t.Some? && Contains(t.value, "{cmd}") ==>
        var i := Find(t.value, "{cmd}").value;
        r == t.value[..i] + Substitution(cmd, "{cmd}", t.value[..i], t.value[i + 5..]) + t.value[i + 5..]
  {
    var template := ErrorsOf(env).commandNotFound;
    if template.Some? && template.value != "" then ReplaceFirst(template.value, "{cmd}", cmd)
    else "Comando no encontrado: '" + cmd + "'"
  }

  /**
   * The line reaches the message as typed unless it holds a `$`: a `$&` in it, for one, brings
   * back the `{cmd}` placeholder, since the line is the replacement of a JavaScript `replace`.
   */
  lemma NotFoundQuotesLine(env: Env, cmd: string)
    requires ErrorsOf(env).commandNotFound.Some? && Contains(ErrorsOf(env).commandNotFound.value, "{cmd}")
    ensures var t := ErrorsOf(env).commandNotFound.value;
      var i := Find(t, "{cmd}").value;
      '$' !in cmd ==> NotFoundMessage(env, cmd) == t[..i] + cmd + t[i + 5..]
    ensures NotFoundMessage(env, "$&") == ErrorsOf(env).commandNotFound.value
  {
    var t := ErrorsOf(env).commandNotFound.value;
    if '$' !in cmd {
      ReplaceFirstLiteral(t, "{cmd}", cmd);
    }
    ReplaceFirstPatterns(t, "{cmd}");
  }

  /** The line as typed is echoed after the prompt, recorded in the history and cleared from the input. */
  function Echo(st: State, cmd: string): State {
    st.(input := "",
        output := st.output + [CommandEcho(st.prompt, " " + cmd)],
        history := st.history + [cmd],
        historyIndex := -1)
  }

  /** The command a line invokes, run; one error line when it invokes none. */
  function RunLine(st: State, env: Env, cmd: string): State {
    match Dispatch(cmd)
    case Invoke(c, args) => Run(st, env, c, args)
    case NotFound => Emit(st, [NotFoundMessage(env, cmd)], ErrorOutput)
  }

  /** `executeCommand(raw)`: a blank line changes nothing; any other line is echoed, then run. */
  function ExecuteStep(st: State, env: Env, raw: string): State {
    var cmd := Trim(raw);
    if cmd == "" then st else RunLine(Echo(st, cmd), env, cmd)
  }

  /** Any other line is echoed, then run. */
  lemma ExecuteRunsLine(st: State, env: Env, raw: string)
    requires Trim(raw) != ""
    ensures ExecuteStep(st, env, raw) == RunLine(Echo(st, Trim(raw)), env, Trim(raw))
  {
  }

  /** A blank line (spaces only, or nothing) is ignored altogether, input included. */
  lemma BlankLineIgnored(st: State, env: Env, raw: string)
    requires AllSpace(raw)
    ensures ExecuteStep(st, env, raw) == st
  {
  }

  /**
   * Any other line ends up as the newest history entry, trimmed, with the history cursor
   * reset and the input cleared; the older entries stay as they were.
   */
  lemma ExecuteRecordsHistory(st: State, env: Env, raw: string)
    requires !AllSpace(raw)
    ensures var r := ExecuteStep(st, env, raw);
      r.history == st.history + [Trim(raw)] && r.historyIndex == -1 && r.input == ""
  {
    var cmd := Trim(raw);
    var echoed := Echo(st, cmd);
    match Dispatch(cmd) {
      case Invoke(c, args) => RunKeepsHistory(echoed, env, c, args);
      case NotFound =>
    }
  }

  /**
   * Unless the line runs `clear`, the screen keeps its rows and gets the echo of the line (the
   * prompt as it was, a space, the trimmed line) right after them.
   */
  lemma ExecuteEchoes(st: State, env: Env, raw: string)
    requires !AllSpace(raw)
    requires Dispatch(Trim(raw)).Invoke? ==> Dispatch(Trim(raw)).command != Clear
    ensures st.output + [CommandEcho(st.prompt, " " + Trim(raw))] <= ExecuteStep(st, env, raw).output
  {
    var cmd := Trim(raw);
    var echoed := Echo(st, cmd);
    match Dispatch(cmd) {
      case Invoke(c, args) => RunExtendsOutput(echoed, env, c, args);
      case NotFound =>
    }
  }

  /** A line nothing matches gets exactly two rows: its echo and one numbered error line. */
  lemma UnknownCommandReported(st: State, env: Env, raw: string)
    requires !AllSpace(raw) && Dispatch(Trim(raw)).NotFound?
    ensures var r := ExecuteStep(st, env, raw);
      r.output == st.output + [CommandEcho(st.prompt, " " + Trim(raw)),
                               Line(st.lineCount, NotFoundMessage(env, Trim(raw)), ErrorOutput)] &&
      r.lineCount == st.lineCount + 1 && r.currentPath == st.currentPath
  {
    var cmd := Trim(raw);
    var echoed := Echo(st, cmd);
    ExecuteRunsLine(st, env, raw);
    RunLineNotFound(echoed, env, cmd);
    EchoThenError(st, cmd, NotFoundMessage(env, cmd));
  }

  /** The echo of a line followed by one error line. */
  lemma EchoThenError(st: State, cmd: string, message: string)
    ensures var r := Emit(Echo(st, cmd), [message], ErrorOutput);
      r.output == st.output + [CommandEcho(st.prompt, " " + cmd), Line(st.lineCount, message, ErrorOutput)] &&
      r.lineCount == st.lineCount + 1 && r.currentPath == st.currentPath
  {
    assert Numbered(st.lineCount, [message], ErrorOutput) == [Line(st.lineCount, message, ErrorOutput)];
  }

  /** A line nothing matches prints the not-found message. */
  lemma RunLineNotFound(st: State, env: Env, cmd: string)
    requires Dispatch(cmd).NotFound?
    ensures RunLine(st, env, cmd) == Emit(st, [NotFoundMessage(env, cmd)], ErrorOutput)
  {
  }

  /** Running a line keeps the session consistent. */
  lemma ExecuteConsistent(st: State, env: Env, raw: string)
    requires Consistent(st)
    ensures Consistent(ExecuteStep(st, env, raw))
  {
    var cmd := Trim(raw);
    if cmd != "" {
      var echoed := Echo(st, cmd);
      assert Consistent(echoed);
      match Dispatch(cmd) {
        case Invoke(c, args) => RunConsistent(echoed, env, c, args);
        case NotFound => EmitConsistent(echoed, [NotFoundMessage(env, cmd)], ErrorOutput);
      }
    }
  }

  /** `executeCommand(raw)` on the live session. */
  method ExecuteCommand(t: Session, env: Env, raw: string)
    modifies t
    ensures t.Snapshot() == ExecuteStep(old(t.Snapshot()), env, raw)
  {
    var cmd := Trim(raw);
    if cmd == "" {
      return;
    }
    ExecuteRunsLine(t.Snapshot(), env, raw);
    RecordLine(t, cmd);
    ExecuteLine(t, env, cmd);
  }

  /** The line is cleared from the input, echoed after the prompt and pushed onto the history. */
  method RecordLine(t: Session, cmd: string)
    modifies t
    ensures t.Snapshot() == Echo(old(t.Snapshot()), cmd)
  {
    t.input := "";
    t.output := t.output + [CommandEcho(t.prompt, " " + cmd)];
    t.history := t.history + [cmd];
    t.historyIndex := -1;
  }

  /** The lookup and the run, once the line is echoed: the whole line is looked up first. */
  method ExecuteLine(t: Session, env: Env, cmd: string)
    modifies t
    ensures t.Snapshot() == RunLine(old(t.Snapshot()), env, cmd)
  {
    if cmd in Table {
      Execute(t, env, Table[cmd], "");
    } else {
      ExecuteByFirstWord(t, env, cmd);
    }
  }

  /** A line that is no key of the table is looked up by its first word. */
  method ExecuteByFirstWord(t: Session, env: Env, cmd: string)
    requires cmd !in Table
    modifies t
    ensures t.Snapshot() == RunLine(old(t.Snapshot()), env, cmd)
  {
    var parts := Split(cmd, ' ');
    var baseCmd := parts[0];
    var args := Join(parts[1..], " ");
    if baseCmd == "cd" {
      ExecuteCdLine(t, env, cmd);
    } else if baseCmd == "cat" {
      ExecuteCatLine(t, env, cmd);
    } else if baseCmd in Table {
      ExecuteFirstWord(t, env, cmd);
    } else {
      ReportNotFound(t, env, cmd);
    }
  }

  /** A line that is no key of the table but starts with the word `cd` runs `cd` on the rest. */
  lemma DispatchCdLine(cmd: string)
    requires cmd !in Table && BaseCommand(cmd) == "cd"
    ensures Dispatch(cmd) == Invoke(Cd, Arguments(cmd))
  {
  }

  /** The same for `cat`. */
  lemma DispatchCatLine(cmd: string)
    requires cmd !in Table && BaseCommand(cmd) == "cat"
    ensures Dispatch(cmd) == Invoke(Cat, Arguments(cmd))
  {
  }

  /** `cd` with the rest of the line. */
  method ExecuteCdLine(t: Session, env: Env, cmd: string)
    requires cmd !in Table && BaseCommand(cmd) == "cd"
    modifies t
    ensures t.Snapshot() == RunLine(old(t.Snapshot()), env, cmd)
  {
    var parts := Split(cmd, ' ');
    var args := Join(parts[1..], " ");
    DispatchCdLine(cmd);
    Execute(t, env, Cd, args);
  }

  /** `cat` with the rest of the line. */
  method ExecuteCatLine(t: Session, env: Env, cmd: string)
    requires cmd !in Table && BaseCommand(cmd) == "cat"
    modifies t
    ensures t.Snapshot() == RunLine(old(t.Snapshot()), env, cmd)
  {
    var parts := Split(cmd, ' ');
    var args := Join(parts[1..], " ");
    DispatchCatLine(cmd);
    Execute(t, env, Cat, args);
  }

  /** Any other first word of the table runs its command with the rest of the line. */
  method ExecuteFirstWord(t: Session, env: Env, cmd: string)
    requires cmd !in Table && BaseCommand(cmd) in Table
    modifies t
    ensures t.Snapshot() == RunLine(old(t.Snapshot()), env, cmd)
  {
    var parts := Split(cmd, ' ');
    var baseCmd := parts[0];
    var args := Join(parts[1..], " ");
    Execute(t, env, Table[baseCmd], args);
  }

  /** The line matches nothing: one error line. */
  method ReportNotFound(t: Session, env: Env, cmd: string)
    requires Dispatch(cmd).NotFound?
    modifies t
    ensures t.Snapshot() == RunLine(old(t.Snapshot()), env, cmd)
  {
    var template := ErrorsOf(env).commandNotFound;
    var message := if template.Some? && template.value != "" then ReplaceFirst(template.value, "{cmd}", cmd)
                   else "Comando no encontrado: '" + cmd + "'";
    t.AddOutput(Text(message), ErrorOutput);
  }

  // ---------------------------------------------------------------------------
  // The keydown handler
  // ---------------------------------------------------------------------------

  /**
   * The keys the keydown handler reacts to. Any other key is left to the browser, whose default
   * action types into the input field; that typing is not modelled as a step. The typed line
   * reaches the model as the `input` of the state, or as the `raw` argument of `ExecuteCommand`.
   */
  datatype Key = Enter | ArrowUp | ArrowDown | OtherKey

  /** One key press: Enter runs the input line, the arrows walk the history. */
  function KeyDownStep(st: State, env: Env, key: Key): State
    requires HistoryCursorOk(st)
  {
    match key
    case Enter => ExecuteStep(st, env, st.input)
    case ArrowUp => HistoryUp(st)
    case ArrowDown => HistoryDown(st)
    case OtherKey => st
  }

  /** Every key press keeps the session consistent. */
  lemma KeyDownConsistent(st: State, env: Env, key: Key)
    requires Consistent(st)
    ensures Consistent(KeyDownStep(st, env, key))
  {
    if key == Enter {
      ExecuteConsistent(st, env, st.input);
    }
  }

  /**
   * Right after a line is run (cursor reset, the line newest in the history), ArrowUp gives the
   * line back, and ArrowDown from there clears the input and resets the cursor again.
   */
  lemma ArrowsAfterLine(r: State, env: Env, line: string)
    requires r.historyIndex == -1 && |r.history| > 0 && r.history[|r.history| - 1] == line
    ensures HistoryCursorOk(r)
    ensures KeyDownStep(r, env, ArrowUp).input == line
    ensures KeyDownStep(KeyDownStep(r, env, ArrowUp), env, ArrowDown).input == ""
  {
  }

  /** Enter on a line, then ArrowUp, gives the trimmed line back; ArrowDown then clears the input. */
  lemma EnterUpDown(st: State, env: Env)
    requires HistoryCursorOk(st) && !AllSpace(st.input)
    ensures var ran := KeyDownStep(st, env, Enter);
      HistoryCursorOk(ran) &&
      KeyDownStep(ran, env, ArrowUp).input == Trim(st.input) &&
      KeyDownStep(KeyDownStep(ran, env, ArrowUp), env, ArrowDown).input == ""
  {
    ExecuteRecordsHistory(st, env, st.input);
    ArrowsAfterLine(KeyDownStep(st, env, Enter), env, Trim(st.input));
  }

  /** The keydown handler on the live session. */
  method KeyDown(t: Session, env: Env, key: Key)
    requires t.Valid()
    modifies t
    ensures t.Snapshot() == KeyDownStep(old(t.Snapshot()), env, key)
    ensures t.Valid()
  {
    KeyDownConsistent(t.Snapshot(), env, key);
    match key {
      case Enter => ExecuteCommand(t, env, t.input);
      case ArrowUp => t.ArrowUp();
      case ArrowDown => t.ArrowDown();
      case OtherKey =>
    }
  }
}
