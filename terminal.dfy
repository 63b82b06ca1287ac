/**
 * The session of the v2 terminal (v2/script.js): the `terminal` record, the numbered output
 * surface `addOutput` writes to, the arrow-key history cursor, the project gallery cursor and
 * the prompt. Each operation is a function on a `State` value, and the `Session` class holds
 * the same fields and updates them in place.
 */
module Terminal {
  import opened Wrappers
  import opened Strings
  import opened FileSystem
  import Bundles
  import Site
  import Carousel

  /** The style class an output row is drawn with. */
  datatype Style = SuccessOutput | ErrorOutput | InfoOutput | DirectoryOutput

  /**
   * A row of the terminal body: a numbered output line, the echo of a submitted command
   * (the prompt and the input, without a number), or the block of an opened project gallery.
   */
  datatype Row =
    | Line(number: nat, text: string, style: Style)
    | CommandEcho(prompt: string, input: string)
    | ProjectBlock(number: nat, name: string, project: Bundles.Project)

  /** `terminal.currentGallery`: the one gallery that the navigation controls act on. */
  datatype Gallery = Gallery(name: string, index: nat, images: seq<string>, total: nat)

  /**
   * The `terminal` record together with what the page shows of it: the rows of the terminal
   * body, the text of the command input and the text of the prompt.
   */
  datatype State = State(
    history: seq<string>,
    historyIndex: int,
    lineCount: nat,
    currentPath: string,
    currentGallery: Option<Gallery>,
    output: seq<Row>,
    input: string,
    prompt: string)

  const Home := "/home/developer"

  /** `updatePrompt`: `~` stands for the root, `~` followed by the path for anything else. */
  function PromptText(path: string): string {
    "developer@portfolio " + (if path == "/" then "~" else "~" + path) + " $"
  }

  /** The history cursor is `-1` (live input) or the distance of an entry from the newest one. */
  predicate HistoryCursorOk(st: State) {
    -1 <= st.historyIndex < |st.history|
  }

  /** A gallery's image index is one of its images (or 0 when it has none). */
  predicate GalleryOk(g: Gallery) {
    g.total == |g.images| && (g.index < g.total || g.index == 0)
  }

  /**
   * What every session keeps: the history cursor in range, the prompt showing the current path,
   * the current path naming a directory, and the live gallery's index in range.
   */
  predicate Consistent(st: State) {
    && HistoryCursorOk(st)
    && st.prompt == PromptText(st.currentPath)
    && IsDirectory(Resolve(st.currentPath))
    && (st.currentGallery.Some? ==> GalleryOk(st.currentGallery.value))
  }

  /** The session when the page has loaded: numbering starts at 2 and the prompt is drawn once. */
  function Initial(): (st: State)
    ensures Consistent(st)
    ensures st.currentPath == "/" && st.history == [] && st.historyIndex == -1
    ensures st.lineCount == 2 && st.currentGallery.None?
  {
    State([], -1, 2, "/", None, [], "", PromptText("/"))
  }

  // ---------------------------------------------------------------------------
  // addOutput
  // ---------------------------------------------------------------------------

  /** The rows for `lines`, numbered from `start`. */
  function Numbered(start: nat, lines: seq<string>, style: Style): (r: seq<Row>)
    ensures |r| == |lines|
    ensures forall i :: 0 <= i < |lines| ==> r[i] == Line(start + i, lines[i], style)
  {
    seq(|lines|, i requires 0 <= i < |lines| => Line(start + i, lines[i], style))
  }

  /** The session after `addOutput(lines, style)`. */
  function Emit(st: State, lines: seq<string>, style: Style): (r: State)
    ensures r.lineCount == st.lineCount + |lines|
    ensures r.output == st.output + Numbered(st.lineCount, lines, style)
    ensures r.history == st.history && r.historyIndex == st.historyIndex
    ensures r.currentPath == st.currentPath && r.currentGallery == st.currentGallery
    ensures r.input == st.input && r.prompt == st.prompt
  {
    st.(output := st.output + Numbered(st.lineCount, lines, style),
        lineCount := st.lineCount + |lines|)
  }

  /** Numbering two lists in turn is numbering them together. */
  lemma NumberedConcat(start: nat, a: seq<string>, b: seq<string>, style: Style)
    ensures Numbered(start, a, style) + Numbered(start + |a|, b, style) == Numbered(start, a + b, style)
  {
    var left := Numbered(start, a, style) + Numbered(start + |a|, b, style);
    var right := Numbered(start, a + b, style);
    forall i | 0 <= i < |left| ensures left[i] == right[i] {
      if i >= |a| {
        assert left[i] == Numbered(start + |a|, b, style)[i - |a|];
      }
    }
  }

  /** Emitting two lists one after the other is emitting them together. */
  lemma EmitConcat(st: State, a: seq<string>, b: seq<string>, style: Style)
    ensures Emit(Emit(st, a, style), b, style) == Emit(st, a + b, style)
  {
    NumberedConcat(st.lineCount, a, b, style);
    var na, nb := Numbered(st.lineCount, a, style), Numbered(st.lineCount + |a|, b, style);
    assert (st.output + na) + nb == st.output + (na + nb);
  }

  /** Printing does not depend on the current path: moving before or after printing is the same. */
  lemma EmitCommutesWithPath(st: State, path: string, lines: seq<string>, style: Style)
    ensures Emit(st.(currentPath := path), lines, style) == Emit(st, lines, style).(currentPath := path)
  {
  }

  /** Emitting keeps every field a session must keep consistent. */
  lemma EmitConsistent(st: State, lines: seq<string>, style: Style)
    requires Consistent(st)
    ensures Consistent(Emit(st, lines, style))
  {
  }

  // ---------------------------------------------------------------------------
  // ArrowUp / ArrowDown
  // ---------------------------------------------------------------------------

  /** ArrowUp: one entry further back, unless the oldest entry is already shown. */
  function HistoryUp(st: State): (r: State)
    requires HistoryCursorOk(st)
    ensures HistoryCursorOk(r)
    ensures r.history == st.history
    ensures st.historyIndex < |st.history| - 1 ==>
      r.historyIndex == st.historyIndex + 1 &&
      r.input == st.history[|st.history| - 1 - r.historyIndex]
    ensures st.historyIndex == |st.history| - 1 ==> r == st
  {
    if st.historyIndex < |st.history| - 1 then
      var i := st.historyIndex + 1;
      st.(historyIndex := i, input := st.history[|st.history| - 1 - i])
    else
      st
  }

  /** ArrowDown: one entry forward, back to an empty input from the newest entry, nothing at -1. */
  function HistoryDown(st: State): (r: State)
    requires HistoryCursorOk(st)
    ensures HistoryCursorOk(r)
    ensures r.history == st.history
    ensures st.historyIndex > 0 ==>
      r.historyIndex == st.historyIndex - 1 &&
      r.input == st.history[|st.history| - 1 - r.historyIndex]
    ensures st.historyIndex == 0 ==> r.historyIndex == -1 && r.input == ""
    ensures st.historyIndex == -1 ==> r == st
  {
    if st.historyIndex > 0 then
      var i := st.historyIndex - 1;
      st.(historyIndex := i, input := st.history[|st.history| - 1 - i])
    else if st.historyIndex == 0 then
      st.(historyIndex := -1, input := "")
    else
      st
  }

  /** `k` presses of ArrowUp. */
  function Ups(st: State, k: nat): (r: State)
    requires HistoryCursorOk(st)
    ensures HistoryCursorOk(r) && r.history == st.history
  {
    if k == 0 then st else HistoryUp(Ups(st, k - 1))
  }

  /** `k` presses of ArrowDown. */
  function Downs(st: State, k: nat): (r: State)
    requires HistoryCursorOk(st)
    ensures HistoryCursorOk(r) && r.history == st.history
  {
    if k == 0 then st else HistoryDown(Downs(st, k - 1))
  }

  /** From live input, the `k`-th ArrowUp shows the `k`-th newest entry: newest first. */
  lemma {:induction false} UpsRecallNewestFirst(st: State, k: nat)
    requires HistoryCursorOk(st) && st.historyIndex == -1
    requires 1 <= k <= |st.history|
    ensures Ups(st, k).historyIndex == k - 1
    ensures Ups(st, k).input == st.history[|st.history| - k]
  {
    if k > 1 {
      UpsRecallNewestFirst(st, k - 1);
    }
  }

  /** ArrowUp past the oldest entry keeps showing the oldest entry. */
  lemma {:induction false} UpsStopAtOldest(st: State, k: nat)
    requires HistoryCursorOk(st) && st.historyIndex == -1
    requires 1 <= |st.history| <= k
    ensures Ups(st, k).historyIndex == |st.history| - 1
    ensures Ups(st, k).input == st.history[0]
  {
    if k == |st.history| {
      UpsRecallNewestFirst(st, k);
    } else {
      UpsStopAtOldest(st, k - 1);
    }
  }

  /**
   * From the entry at cursor `j`, ArrowDown walks back towards the newest entry, and the
   * `j + 1`-th press clears the input and leaves history browsing.
   */
  lemma {:induction false} DownsWalkBack(st: State, m: nat)
    requires HistoryCursorOk(st) && st.historyIndex >= 0
    requires m <= st.historyIndex + 1
    ensures m <= st.historyIndex ==>
      Downs(st, m).historyIndex == st.historyIndex - m &&
      (m > 0 ==> Downs(st, m).input == st.history[|st.history| - 1 - (st.historyIndex - m)])
    ensures m == st.historyIndex + 1 ==>
      Downs(st, m).historyIndex == -1 && Downs(st, m).input == ""
  {
    if m > 0 {
      DownsWalkBack(st, m - 1);
    }
  }

  /** The history cursor is never moved by ArrowDown once it is back at live input. */
  lemma {:induction false} DownsAtLiveInput(st: State, m: nat)
    requires HistoryCursorOk(st) && st.historyIndex == -1
    ensures Downs(st, m) == st
  {
    if m > 0 {
      DownsAtLiveInput(st, m - 1);
    }
  }

  // ---------------------------------------------------------------------------
  // The project gallery
  // ---------------------------------------------------------------------------

  /** `images.map(img => getImagePath(img))` on the page at `pagePath`. */
  function ImagePaths(images: seq<string>, pagePath: string): (r: seq<string>)
    ensures |r| == |images|
    ensures forall i :: 0 <= i < |images| ==> r[i] == Site.GetImagePath(images[i], pagePath)
  {
    seq(|images|, i requires 0 <= i < |images| => Site.GetImagePath(images[i], pagePath))
  }

  /**
   * `displayProjectGallery(name, project)`: one numbered block showing the project with its
   * images resolved, and the live gallery replaced by this one, at its first image.
   */
  function OpenGallery(st: State, name: string, p: Bundles.Project, pagePath: string): (r: State)
    ensures r.lineCount == st.lineCount + 1
    ensures r.output == st.output + [ProjectBlock(st.lineCount, name, p.(images := ImagePaths(p.images, pagePath)))]
    ensures r.currentGallery.Some? && GalleryOk(r.currentGallery.value)
    ensures r.currentGallery.value.name == name && r.currentGallery.value.index == 0
    ensures r.currentGallery.value.total == |p.images|
    ensures r.(lineCount := st.lineCount, output := st.output, currentGallery := st.currentGallery) == st
  {
    var images := ImagePaths(p.images, pagePath);
    st.(output := st.output + [ProjectBlock(st.lineCount, name, p.(images := images))],
        lineCount := st.lineCount + 1,
        currentGallery := Some(Gallery(name, 0, images, |images|)))
  }

  /** Opening a gallery keeps the session consistent. */
  lemma OpenGalleryConsistent(st: State, name: string, p: Bundles.Project, pagePath: string)
    requires Consistent(st)
    ensures Consistent(OpenGallery(st, name, p, pagePath))
  {
  }

  /** Whether `name` is the live gallery, the only one the controls act on. */
  predicate IsLive(st: State, name: string) {
    st.currentGallery.Some? && st.currentGallery.value.name == name
  }

  /**
   * `nextImage(name)`. A gallery without images would compute NaN in the source; here it
   * stays where it is.
   */
  function NextImageStep(st: State, name: string): State {
    if IsLive(st, name) && st.currentGallery.value.total > 0 then
      var g := st.currentGallery.value;
      st.(currentGallery := Some(g.(index := Carousel.Next(g.index, g.total))))
    else
      st
  }

  /** `prevImage(name)`. */
  function PrevImageStep(st: State, name: string): State {
    if IsLive(st, name) && st.currentGallery.value.total > 0 then
      var g := st.currentGallery.value;
      st.(currentGallery := Some(g.(index := Carousel.Prev(g.index, g.total))))
    else
      st
  }

  /** `goToImage(name, index)`: a dot of the live gallery selects its image directly. */
  function GoToImageStep(st: State, name: string, index: nat): State {
    if IsLive(st, name) then
      st.(currentGallery := Some(st.currentGallery.value.(index := index)))
    else
      st
  }

  /** Only the live gallery moves: the controls of any other gallery change nothing. */
  lemma ControlsIgnoreOtherGalleries(st: State, name: string, index: nat)
    requires !IsLive(st, name)
    ensures NextImageStep(st, name) == st
    ensures PrevImageStep(st, name) == st
    ensures GoToImageStep(st, name, index) == st
  {
  }

  /** Stepping the live gallery keeps its index among its images and changes nothing else. */
  lemma StepsStayInRange(st: State, name: string)
    requires IsLive(st, name) && GalleryOk(st.currentGallery.value)
    ensures var g := st.currentGallery.value;
      var n := NextImageStep(st, name).currentGallery.value;
      var p := PrevImageStep(st, name).currentGallery.value;
      GalleryOk(n) && GalleryOk(p) &&
      (g.total > 0 ==> n.index < g.total && p.index < g.total) &&
      n.(index := g.index) == g && p.(index := g.index) == g
  {
  }

  /** Next then previous, or previous then next, comes back to the same image. */
  lemma NextPrevRoundTrip(st: State, name: string)
    requires IsLive(st, name) && GalleryOk(st.currentGallery.value)
    ensures PrevImageStep(NextImageStep(st, name), name) == st
    ensures NextImageStep(PrevImageStep(st, name), name) == st
  {
    var g := st.currentGallery.value;
    if g.total > 0 {
      Carousel.PrevAfterNext(g.index, g.total);
      Carousel.NextAfterPrev(g.index, g.total);
    }
  }

  /** A dot of the live gallery sets the index to its own position, within range. */
  lemma GoToImageSelects(st: State, name: string, index: nat)
    requires IsLive(st, name) && GalleryOk(st.currentGallery.value)
    requires index < st.currentGallery.value.total
    ensures GoToImageStep(st, name, index).currentGallery.value.index == index
    ensures GalleryOk(GoToImageStep(st, name, index).currentGallery.value)
  {
  }

  // ---------------------------------------------------------------------------
  // The session object
  // ---------------------------------------------------------------------------

  /** The `terminal` object of the page; its methods update its fields in place. */
  class Session {
    var history: seq<string>
    var historyIndex: int
    var lineCount: nat
    var currentPath: string
    var currentGallery: Option<Gallery>
    var output: seq<Row>
    var input: string
    var prompt: string

    /** The fields, as one value. */
    function Snapshot(): State
      reads this
    {
      State(history, historyIndex, lineCount, currentPath, currentGallery, output, input, prompt)
    }

    predicate Valid()
      reads this
    {
      Consistent(Snapshot())
    }

    /** The page load: the record's initial values, then `updatePrompt()`. */
    constructor()
      ensures Snapshot() == Initial() && Valid()
    {
      history := [];
      historyIndex := -1;
      lineCount := 2;
      currentPath := "/";
      currentGallery := None;
      output := [];
      input := "";
      prompt := PromptText("/");
    }

    /** `addOutput(lines, style)`: one numbered row per line, each taking the next number. */
    method AddOutput(lines: Lines, style: Style)
      modifies this
      ensures Snapshot() == Emit(old(Snapshot()), lines.AsList(), style)
    {
      var ls := lines.AsList();
      var i := 0;
      while i < |ls|
        invariant 0 <= i <= |ls|
        invariant Snapshot() == Emit(old(Snapshot()), ls[..i], style)
      {
        EmitConcat(old(Snapshot()), ls[..i], [ls[i]], style);
        assert ls[..i] + [ls[i]] == ls[..i + 1];
        output := output + [Line(lineCount, ls[i], style)];
        lineCount := lineCount + 1;
        i := i + 1;
      }
      assert ls[..i] == ls;
    }

    /** `updatePrompt()`. */
    method UpdatePrompt()
      modifies this
      ensures Snapshot() == old(Snapshot()).(prompt := PromptText(currentPath))
    {
      prompt := "developer@portfolio " + (if currentPath == "/" then "~" else "~" + currentPath) + " $";
    }

    /** The ArrowUp branch of the keydown handler. */
    method ArrowUp()
      requires HistoryCursorOk(Snapshot())
      modifies this
      ensures Snapshot() == HistoryUp(old(Snapshot()))
    {
      if historyIndex < |history| - 1 {
        historyIndex := historyIndex + 1;
        input := history[|history| - 1 - historyIndex];
      }
    }

    /** The ArrowDown branch of the keydown handler. */
    method ArrowDown()
      requires HistoryCursorOk(Snapshot())
      modifies this
      ensures Snapshot() == HistoryDown(old(Snapshot()))
    {
      if historyIndex > 0 {
        historyIndex := historyIndex - 1;
        input := history[|history| - 1 - historyIndex];
      } else if historyIndex == 0 {
        historyIndex := historyIndex - 1;
        input := "";
      }
    }

    /** `displayProjectGallery(name, project)`, without its HTML. */
    method DisplayProjectGallery(name: string, project: Bundles.Project, pagePath: string)
      modifies this
      ensures Snapshot() == OpenGallery(old(Snapshot()), name, project, pagePath)
    {
      var images := ImagePaths(project.images, pagePath);
      output := output + [ProjectBlock(lineCount, name, project.(images := images))];
      lineCount := lineCount + 1;
      currentGallery := Some(Gallery(name, 0, images, |images|));
    }

    /** `nextImage(name)`. */
    method NextImage(name: string)
      modifies this
      ensures Snapshot() == NextImageStep(old(Snapshot()), name)
    {
      if currentGallery.Some? && currentGallery.value.name == name && currentGallery.value.total > 0 {
        var g := currentGallery.value;
        currentGallery := Some(g.(index := (g.index + 1) % g.total));
      }
    }

    /** `prevImage(name)`. */
    method PrevImage(name: string)
      modifies this
      ensures Snapshot() == PrevImageStep(old(Snapshot()), name)
    {
      if currentGallery.Some? && currentGallery.value.name == name && currentGallery.value.total > 0 {
        var g := currentGallery.value;
        currentGallery := Some(g.(index := (g.index - 1 + g.total) % g.total));
      }
    }

    /** `goToImage(name, index)`. */
    method GoToImage(name: string, index: nat)
      modifies this
      ensures Snapshot() == GoToImageStep(old(Snapshot()), name, index)
    {
      if currentGallery.Some? && currentGallery.value.name == name {
        currentGallery := Some(currentGallery.value.(index := index));
      }
    }
  }
}
