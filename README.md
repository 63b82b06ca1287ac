# Portfolio terminal — a Dafny model

This project models the core of a personal portfolio site whose second version (v2) is a
simulated Unix terminal in the browser. The visitor types commands such as `pwd`, `ls`,
`ls -la`, `cd`, `cat`, `cat projects`, `skills --all`, `contact`, `wget cv.pdf`, `help` and
`clear` into an input line. The terminal keeps a numbered output, a command history walked
with the arrow keys, a current directory in a small fixed file tree and, after `cat` of a
project, an image gallery with next/previous/jump controls. Texts come from per-language JSON
bundles (Spanish by default, English on request).

Next to the terminal the model covers the helpers shared by both versions (the boxed-text
renderer, image path resolution, the language and version toggles and the flattening of
nested translation objects) and the project showcase of the first version (v1), which keeps
one image index per project.

The modules follow the program:

- `Wrappers`: `Option`.
- `Strings`: JavaScript's `trim`, `split`, `join`, `indexOf`/`includes`, `replace` with a
  string pattern, `repeat` and `filter(Boolean)`.
- `Carousel`: the wrap-around next/previous index used by every gallery.
- `FileSystem`: the fixed tree, `navigatePath`, `listFilesInDirectory` and `getFile`.
- `Bundles`: the localized JSON inputs, `getFileContent` and `getProjectData`.
- `Terminal`: the terminal record (a class `Session` with a value `State` as its snapshot),
  `addOutput`, `updatePrompt`, the history keys and the gallery.
- `Commands`: one step function and one method per command, and the command table.
- `Dispatcher`: `executeCommand` and the keydown handler.
- `Site`: the helpers of the shared `script.js`.
- `V1Site`: the helpers and showcase of `v1/script.js`.

Each state-changing operation is a method on a class (`Terminal.Session`,
`Site.Preferences`, `V1Site.Showcase`) whose postcondition ties the new state to a pure
step function of the old one. The properties are lemmas about those step functions.

Inputs the browser supplies become parameters:

- the stored language and version (`localStorage`);
- the page path (`window.location.pathname`);
- the loaded JSON bundles, each either present or missing, gathered in `Bundles.Env`.

## Model

| member | source | states |
|---|---|---|
| Strings.TrimStart | v2/commands.js:105 | the result is a suffix of the input, does not start with white space, and everything cut off is white space |
| Strings.TrimEnd | v2/commands.js:105 | the result is a prefix of the input, does not end with white space, and everything cut off is white space |
| Strings.Trim | v2/script.js:139-140 | the trimmed line is the input with its leading and trailing white space cut off: a slice with only white space before and after it, with no white space at either end, and empty exactly when the input is all white space |
| Strings.SpacedSliceOf | v2/script.js:139 | a suffix after white space, cut before white space, is a slice of the text with only white space on either side |
| Strings.TrimUntouched | v2/script.js:139 | a line with no white space at either end is left as it is |
| Strings.TrimIdempotent | v2/script.js:139 | trimming twice is trimming once |
| Strings.OccursShift | script.js:197 | an occurrence in a string one character longer sits one position further on |
| Strings.Find | script.js:197 | the position found is an occurrence with none before it; no position means no occurrence anywhere |
| Strings.StartsWith | v2/commands.js:170 | `startsWith`, by its definition the first characters of the text; `CatOpensProjectPath` and `CatPathFallsThrough` use it for the `projects/` test |
| Strings.Contains | script.js:197 | `includes`: `Find` returns an occurrence, and its ensures state that it does exactly when one exists |
| Strings.ReplaceFirst | v2/commands.js:194 | a string pattern replaces only its first occurrence, by the replacement with `$$`, `$&`, `` $` `` and `$'` standing for `$`, the match, the text before it and the text after it; an absent pattern leaves the text unchanged |
| Strings.Substitution | v2/commands.js:194 | GetSubstitution for a pattern without captures; `SubstitutionLiteral` and `SubstitutionPatterns` state what it produces |
| Strings.SubstitutionLiteral | v2/commands.js:135 | a replacement without `$` is inserted as it is |
| Strings.SubstitutionPatterns | v2/script.js:182 | `$$` gives `$`, `$&` the match, `` $` `` the text before it and `$'` the text after it, while a lone `$` and `$1` stay as written |
| Strings.ReplaceFirstPatterns | v2/commands.js:214 | replacing by `$&` leaves the text unchanged, and replacing by `$$` inserts a single `$` |
| Strings.ReplaceFirstLiteral | v2/commands.js:194 | with a replacement free of `$`, the first occurrence is replaced by the replacement as written |
| Strings.ReplacePrefix | v2/commands.js:171 | replacing a prefix with nothing drops exactly that prefix |
| Strings.Utf16Length | script.js:34 | a string's `length` counts between one and two code units per character |
| Strings.Utf16Concat | script.js:34 | the `length` of a concatenation is the sum of the two lengths |
| Strings.Utf16Plain | script.js:34 | `length` is the number of characters exactly when no character lies outside the Basic Multilingual Plane |
| Strings.Repeat | script.js:37 | `repeat(n)` has length n and holds only the repeated character |
| Strings.Split | v2/script.js:163 | a split has at least one piece and no piece contains the separator |
| Strings.JoinSplit | v2/commands.js:231 | joining the pieces of a split with the separator gives back the split text |
| Strings.Join | v2/script.js:165 | `join`; `JoinSplit`, `SplitJoin` and `SplitAtFirst` state how it undoes `split` |
| Strings.SplitNoSeparator | v2/script.js:163 | a text without the separator splits into itself alone |
| Strings.SplitConcat | v2/script.js:163 | splitting two texts joined by one separator splits each and concatenates the pieces |
| Strings.SplitJoin | v2/script.js:163-165 | splitting pieces joined by a separator they do not contain gives the pieces back |
| Strings.SplitAtFirst | v2/script.js:163-165 | the first piece is everything before the first separator and the rest re-joins to everything after it |
| Strings.NonEmpty | v2/commands.js:115 | `filter(Boolean)` keeps only non-empty pieces, each taken from the input, and never lengthens it |
| Strings.NonEmptyConcat | v2/commands.js:115 | filtering distributes over concatenation |
| Strings.NonEmptyKeeps | v2/commands.js:115 | filtering pieces that are all non-empty keeps them all |
| Carousel.Next | v2/script.js:336-342 | the next index is below the count and wraps from the last image to the first |
| Carousel.Prev | v2/script.js:344-351 | the previous index is below the count and wraps from the first image to the last |
| Carousel.PrevAfterNext | v2/script.js:336-351 | going back after going forward returns to the same image |
| Carousel.NextAfterPrev | v2/script.js:336-351 | going forward after going back returns to the same image |
| FileSystem.Names | v2/script.js:79-83 | the names of a directory are its entries' names, in order |
| FileSystem.Lookup | v2/script.js:239-240 | a name is found exactly when the directory has an entry of that name, and the node found is that entry's |
| FileSystem.Child | v2/script.js:239-240 | a step succeeds exactly from a directory holding the name |
| FileSystem.Segments | v2/script.js:235 | the segments of a path are non-empty and contain no slash |
| FileSystem.Root | v2/script.js:40-58 | the fixed tree: `bio.txt`, `projects` with its four projects, `skills.txt` and `contact.txt`; `ProjectsSpellings` and `NameSpellings` state paths into it |
| FileSystem.Walk | v2/script.js:238-243 | the loop of `navigatePath` as recursion; `WalkAppend`, `WalkFailsAtMissingSegment`, `WalkPrefixIsDirectory` and `WalkLast` state its behaviour |
| FileSystem.Resolve | v2/script.js:232-244 | `navigatePath(path)`; `NavigatePath` is proved equal to it, and `ResolveIsWalk` and `ResolveBySegments` state it |
| FileSystem.GetFile | v2/script.js:246-253 | `getFile(path)`; `GetFileIsResolve` states that it agrees with `Resolve` on every path with a segment |
| FileSystem.NavigatePath | v2/script.js:232-244 | the loop over the segments returns the node the path resolves to |
| FileSystem.WalkAppend | v2/script.js:238-241 | walking two runs of segments is walking the first and then the second from where it ended |
| FileSystem.WalkPrefixFromChild | v2/script.js:238-241 | a walk from a directory through its child equals the walk from the child of the remaining segments |
| FileSystem.WalkFailsAtMissingSegment | v2/script.js:238-243 | a walk fails exactly when some segment is missing from the directory the walk has reached |
| FileSystem.WalkPrefixIsDirectory | v2/script.js:238-243 | every prefix of a walk that ends in a directory also ends in a directory |
| FileSystem.SegmentsConcat | v2/script.js:235 | the segments of two paths joined by a slash are the segments of each, concatenated |
| FileSystem.SegmentsJoin | v2/script.js:235 | segments joined with slashes split back into the same segments |
| FileSystem.SegmentsOfEmpty | v2/script.js:235 | the empty path has no segments |
| FileSystem.SegmentsLeadingSlash | v2/script.js:235 | a leading slash does not change the segments |
| FileSystem.SegmentsOfName | v2/script.js:235 | a plain name is its own single segment |
| FileSystem.ResolveIsWalk | v2/script.js:233-236 | the special case for the root path agrees with walking no segments |
| FileSystem.ResolveBySegments | v2/script.js:235-236 | two paths with the same segments resolve to the same node |
| FileSystem.NameSpellings | v2/script.js:235 | `name`, `/name/` and `//name` have the same single segment |
| FileSystem.ProjectsSpellings | v2/script.js:232-244 | `projects`, `/projects/` and `//projects` all resolve to the projects directory |
| FileSystem.ListFilesInDirectory | v2/script.js:79-83 | the listing of a directory is its entries' names, and anything else lists nothing |
| FileSystem.ResolveParent | v2/script.js:249 | the parent path built from the leading segments resolves to the walk of those segments |
| FileSystem.WalkLast | v2/script.js:247-251 | walking a path is walking to its parent and then stepping to the last segment |
| FileSystem.GetFileIsResolve | v2/script.js:246-253 | `getFile` finds the node the path resolves to, and nothing for a path without segments |
| Bundles.Section | v2/script.js:29 | `data[lang]` is present exactly when the bundle is loaded and has that language, and is its entry |
| Bundles.Language | v2/script.js:10 | the language is the stored one when it is non-empty, `es` when it is missing or empty, and never empty |
| Bundles.OrElse | v2/script.js:10 | JavaScript `a \|\| b` on an optional string: a missing or empty value falls back; `Language` and `FileContent` state its outcomes |
| Bundles.FileContent | v2/script.js:9-22 | the text of a file is its localized text when present and non-empty, otherwise one of the two fallbacks, and never empty |
| Bundles.FindProject | v2/script.js:29-33 | the project found is the record of the first entry with that name, and none is found when no entry has that name |
| Bundles.ProjectData | v2/script.js:25-34 | project data exists exactly when the language's section is loaded and lists that name, and it is the record listed under that name |
| Site.MaxLength | script.js:34 | the maximum length in UTF-16 code units bounds every text's length and is reached by one of them |
| Site.FramedWidth | script.js:38 | framing a text adds twice the padding plus two code units to its length |
| Site.BorderWidth | script.js:37-39 | a border is as many code units long as its width plus its two corners |
| Site.FramedAll | script.js:38 | every text is framed, in order |
| Site.CreateBoxedText | script.js:32-41 | an empty list has no box; otherwise the box is a top border, the framed texts joined by new lines and a bottom border, both borders as wide as the widest text plus the padding, widths counted in UTF-16 code units |
| Site.BoxFitsWidestLine | script.js:34-39 | in UTF-16 code units, both borders have the same length, no framed line is longer, and the widest framed line is exactly as long |
| Site.BoxOfOneString | script.js:33 | a single string is boxed as a one-element list, and its box is as wide as its framed line in UTF-16 code units |
| Site.BoxMiddleSplitsIntoLines | script.js:38 | splitting the middle of the box at new lines gives back the framed texts |
| Site.Framed | script.js:38 | one text between the side borders with its padding; `FramedWidth` states its width |
| Site.Border | script.js:37-39 | a horizontal border; `BorderWidth` states its width |
| Site.PageVersion | script.js:191-192 | the version is `v2` exactly when the page path contains `/v2/`, and `v1` otherwise |
| Site.GetImagePath | script.js:190-201 | absolute and `http` names are kept, `public/` names get a leading slash, any other name goes under the version's images folder |
| Site.ImagePathIdempotent | script.js:190-201 | resolving an already resolved image path changes nothing |
| Site.ImagePathKeepsName | script.js:190-201 | the resolved path ends with the image name |
| Site.Toggle | script.js:122-135 | the toggle yields the second value (`en`, `v2`) exactly when the stored value, the first (`es`, `v1`) by default, is the first, and the first value otherwise |
| Site.VersionPage | script.js:137 | the index page of a version, where `Preferences.ToggleVersion` moves |
| Site.TogglesBack | script.js:122-138 | after the first toggle the value alternates, and from a known value it always changes |
| Site.Preferences.constructor | script.js:122-138 | the preferences start from the stored language, the stored version and the current location |
| Site.Preferences.ToggleLang | script.js:122-128 | toggling stores the next language and leaves the version and the location alone |
| Site.Preferences.ToggleVersion | script.js:133-138 | toggling stores the next version and moves to that version's index page, keeping the language |
| Site.Prefixed | script.js:66-70 | descending into a key puts that key in front of every leaf path below it |
| Site.FullKey | script.js:66 | `prefix ? prefix.key : key`; `FullKeyIsJoin` states it as a dot-join |
| Site.Flatten | script.js:64-89 | `applyNestedTranslations` as the list of texts with their keys; `FlattenJoinsKeyPaths` and `SectionKeysAreDottedPaths` state it against the independent `Leaves` |
| Site.Keyed | script.js:66 | every leaf gets the dotted key of its whole path |
| Site.JoinSnoc | script.js:66 | joining with one more key appends the separator and that key |
| Site.FullKeyIsJoin | script.js:66 | the `prefix.key` rule builds exactly the dot-joined path |
| Site.KeyedConcat | script.js:63-90 | keying distributes over concatenated leaves |
| Site.KeyedPrefixed | script.js:66-70 | keying under a longer prefix is keying the prefixed leaves |
| Site.FlattenJoinsKeyPaths | script.js:63-90 | the recursive walk from any dotted prefix assigns each leaf text to the prefix and its path, in visiting order |
| Site.SectionKeysAreDottedPaths | script.js:63-90 | from the empty prefix each leaf text is applied to the key made of its own path joined by dots |
| V1Site.GetImagePath | v1/script.js:2-10 | absolute and `http` names are kept, `public/` names get a leading slash, any other name goes under `/images/` |
| V1Site.AgreesWithSharedResolver | v1/script.js:2-10 | the v1 resolver agrees with the shared one exactly for absolute and `public/` names |
| V1Site.ProjectKey | v1/script.js:232-234 | a project id names a project exactly when it is between 1 and the number of projects, in the fixed order |
| V1Site.ProjectOf | v1/script.js:232-235 | the project an id shows; `StepIgnoresUnknownProject` states what happens without one |
| V1Site.Throws | v1/script.js:130 | whether rendering a project throws on `getImagePath(project.images[0])`; `RenderStopsAtEmptyGallery` states the consequence |
| V1Site.Steps | v1/script.js:79-130 | the steps of the rendering loop that run: up to and including the first loaded project without images, or all of them |
| V1Site.StepsUnique | v1/script.js:79-130 | the loop runs exactly that many steps: no earlier project throws, and the last one run throws unless the order is done |
| V1Site.ResetIndexes | v1/script.js:79-87 | the dictionary after the first steps of the loop; `ResetIndexesSpec` states it |
| V1Site.ResetIndexesSpec | v1/script.js:79-87 | after the first n steps the index of every rendered project among them is 0 and every other entry is unchanged |
| V1Site.RenderIndexesAll | v1/script.js:61-161 | after rendering every rendered project has an index and it is 0, and the projects after one that throws keep the entries they had |
| V1Site.RenderStopsAtEmptyGallery | v1/script.js:79-130 | a loaded project without images ends the rendering: no later project is rendered or gets a new index |
| V1Site.RenderAllWithImages | v1/script.js:79-87 | when every loaded project has images the whole order is rendered and every loaded project sits at image 0 |
| V1Site.NextIndex | v1/script.js:232-242 | `nextProjectImage` on the dictionary; `StepMovesOneProject`, `PrevUndoesNext` and `StepIgnoresUnknownProject` state it |
| V1Site.PrevIndex | v1/script.js:244-254 | `prevProjectImage` on the dictionary; stated by the same three lemmas |
| V1Site.StepMovesOneProject | v1/script.js:232-254 | next and previous change only the given project's index and keep it among its images |
| V1Site.PrevUndoesNext | v1/script.js:232-254 | previous after next, and next after previous, restore the indexes |
| V1Site.StepIgnoresUnknownProject | v1/script.js:232-254 | an id without a project leaves the indexes unchanged |
| V1Site.Showcase.constructor | v1/script.js:32-33 | the showcase starts with no projects and no indexes |
| V1Site.Showcase.LoadProjects | v1/script.js:36-57 | loading a section stores it and resets the indexes as rendering does, up to a project that throws, whose error is caught; a missing section changes nothing |
| V1Site.Showcase.RenderProjects | v1/script.js:61-161 | rendering keeps the projects and resets the index of each loaded project in order, stopping after the first one without images, whose template throws |
| V1Site.Showcase.NextProjectImage | v1/script.js:232-242 | the indexes become the next-image indexes of the old ones, and the showcase stays valid |
| V1Site.Showcase.PrevProjectImage | v1/script.js:244-254 | the indexes become the previous-image indexes of the old ones, and the showcase stays valid |
| V1Site.Showcase.GoToImage | v1/script.js:256-259 | only the given project's index changes, to the requested one |
| Terminal.Initial | v2/script.js:64-73 | the terminal starts consistent at the root, with an empty history, the cursor reset, line count 2 and no gallery |
| Terminal.PromptText | v2/script.js:364-367 | the prompt shows `~` at the root and `~` before the path elsewhere; `PromptAgreesWithPwd` relates it to `pwd` |
| Terminal.Consistent | v2/script.js:64-73 | the session invariant: cursor in range, prompt showing the path, path naming a directory, live gallery index in range; kept by `EmitConsistent`, `CdConsistent`, `CatConsistent`, `RunConsistent`, `ExecuteConsistent` and `KeyDownConsistent` |
| Terminal.IsLive | v2/script.js:336-358 | whether a name is the open gallery; `ControlsIgnoreOtherGalleries` states that the controls act on it only |
| Terminal.NextImageStep | v2/script.js:336-342 | `nextImage(name)`; `StepsStayInRange`, `NextPrevRoundTrip` and `ControlsIgnoreOtherGalleries` state it |
| Terminal.PrevImageStep | v2/script.js:344-351 | `prevImage(name)`; stated by the same three lemmas |
| Terminal.GoToImageStep | v2/script.js:353-358 | `goToImage(name, index)`; `GoToImageSelects` and `ControlsIgnoreOtherGalleries` state it |
| Terminal.Numbered | v2/script.js:114-120 | every printed line carries the running line number, in order |
| Terminal.Emit | v2/script.js:111-132 | printing appends one numbered row per line, advances the count by the number of lines and changes nothing else |
| Terminal.NumberedConcat | v2/script.js:114-120 | numbering two batches in turn is numbering them together |
| Terminal.EmitConcat | v2/script.js:111-132 | printing two batches in turn is printing them together |
| Terminal.EmitCommutesWithPath | v2/commands.js:131-139 | printing and then restoring the directory is restoring and then printing |
| Terminal.EmitConsistent | v2/script.js:111-132 | printing keeps the terminal consistent |
| Terminal.HistoryUp | v2/script.js:197-203 | ArrowUp moves one step back in the history and shows that command, and stops at the oldest |
| Terminal.HistoryDown | v2/script.js:204-213 | ArrowDown moves one step forward and shows that command, clears the input after the newest, and does nothing at the live input |
| Terminal.Ups | v2/script.js:197-203 | repeated ArrowUp keeps the cursor in range and the history unchanged |
| Terminal.Downs | v2/script.js:204-213 | repeated ArrowDown keeps the cursor in range and the history unchanged |
| Terminal.UpsRecallNewestFirst | v2/script.js:197-203 | the k-th ArrowUp from the live input shows the k-th newest command |
| Terminal.UpsStopAtOldest | v2/script.js:199-203 | pressing ArrowUp more often than there are commands stays at the oldest |
| Terminal.DownsWalkBack | v2/script.js:204-213 | ArrowDown walks back towards the newest command one step at a time and ends at an empty input |
| Terminal.DownsAtLiveInput | v2/script.js:204-213 | ArrowDown at the live input does nothing |
| Terminal.ImagePaths | v2/script.js:262 | every image of a gallery is resolved with the shared resolver, in order |
| Terminal.OpenGallery | v2/script.js:259-322 | opening a gallery prints one project block and makes that project the current gallery at its first image, changing nothing else |
| Terminal.OpenGalleryConsistent | v2/script.js:305-310 | opening a gallery keeps the terminal consistent |
| Terminal.ControlsIgnoreOtherGalleries | v2/script.js:336-358 | the controls of a project that is not the current gallery do nothing |
| Terminal.StepsStayInRange | v2/script.js:336-351 | next and previous keep the current image among the gallery's images and change nothing else in it |
| Terminal.NextPrevRoundTrip | v2/script.js:336-351 | previous after next, and next after previous, restore the gallery |
| Terminal.GoToImageSelects | v2/script.js:353-358 | jumping to an existing image selects it |
| Terminal.Session.constructor | v2/script.js:64-73 | a new terminal is in the initial state |
| Terminal.Session.AddOutput | v2/script.js:111-132 | the loop appends the numbered rows of the text or list given, as printing specifies |
| Terminal.Session.UpdatePrompt | v2/script.js:364-367 | the prompt shows the current directory and nothing else changes |
| Terminal.Session.ArrowUp | v2/script.js:197-203 | the terminal moves as ArrowUp specifies |
| Terminal.Session.ArrowDown | v2/script.js:204-213 | the terminal moves as ArrowDown specifies |
| Terminal.Session.DisplayProjectGallery | v2/script.js:259-322 | the terminal opens the project's gallery as specified |
| Terminal.Session.NextImage | v2/script.js:336-342 | the current gallery moves to its next image when it is the given project's |
| Terminal.Session.PrevImage | v2/script.js:344-351 | the current gallery moves to its previous image when it is the given project's |
| Terminal.Session.GoToImage | v2/script.js:353-358 | the current gallery jumps to the given image when it is the given project's |
| Commands.PromptAgreesWithPwd | v2/commands.js:12-15 | `pwd` and the prompt show the same directory below home, and both show nothing for the root |
| Commands.PwdText | v2/commands.js:12-15 | what `pwd` prints; `PromptAgreesWithPwd` and `CdThenPwd` state it |
| Commands.PwdStep | v2/commands.js:10-19 | `pwd`; `PwdPrintsOneLine` states it and `ExecutePwd` is proved equal to it |
| Commands.WhoamiStep | v2/commands.js:24-36 | `whoami`; `BundleCommandsPrintSection` states it and `ExecuteWhoami` is proved equal to it |
| Commands.WgetStep | v2/commands.js:248-260 | `wget cv.pdf`; `BundleCommandsPrintSection` states it and `ExecuteWget` is proved equal to it |
| Commands.LongListing | v2/commands.js:41-67 | `ls -la` in a resolved directory; `LongListingLines` states its lines |
| Commands.LsLaStep | v2/commands.js:41-67 | `ls -la` from the current path; `LongListingLines` states it and `ExecuteLsLa` is proved equal to it |
| Commands.LsError | v2/commands.js:81 | the localized `ls` error or the built-in one; `ShortListingLines` states where it appears |
| Commands.ShortListing | v2/commands.js:72-94 | `ls` in a resolved directory; `ShortListingLines` and `ShortNamesAreListing` state it |
| Commands.LsStep | v2/commands.js:72-94 | `ls` from the current path; `ShortListingLines` states it and `ExecuteLs` is proved equal to it |
| Commands.PwdPrintsOneLine | v2/commands.js:10-19 | `pwd` prints one success line with the home-relative directory and does not move |
| Commands.ExecutePwd | v2/commands.js:10-19 | running `pwd` changes the terminal as the `pwd` step specifies |
| Commands.BundleCommandsPrintSection | v2/commands.js:24-36 | `whoami` and `wget cv.pdf` print their section's values, one line each, or their one error line when the section is missing |
| Commands.ExecuteWhoami | v2/commands.js:24-36 | running `whoami` changes the terminal as its step specifies |
| Commands.ExecuteWget | v2/commands.js:248-260 | running `wget cv.pdf` changes the terminal as its step specifies |
| Commands.LongLines | v2/commands.js:55-63 | one long-format line per entry, in order |
| Commands.LongListingLines | v2/commands.js:41-67 | `ls -la` prints the two dot lines and then one long line per entry, numbered in turn, or one error line outside a directory |
| Commands.LongFormat | v2/commands.js:50-63 | the loop builds the two dot lines followed by one long line per entry |
| Commands.ExecuteLsLa | v2/commands.js:41-67 | running `ls -la` changes the terminal as its step specifies |
| Commands.ShortNames | v2/commands.js:85-88 | one short name per entry, in order |
| Commands.ShortListingLines | v2/commands.js:72-94 | `ls` prints the names on one directory line, prints nothing for an empty directory, and prints the localized error outside a directory |
| Commands.ShortNamesAreListing | v2/commands.js:85-88 | the short names are the directory's listing, with a slash after each directory |
| Commands.ExecuteLs | v2/commands.js:72-94 | running `ls` changes the terminal as its step specifies |
| Commands.Pop | v2/commands.js:116 | popping removes exactly the last segment and leaves an empty list empty |
| Commands.CdTarget | v2/commands.js:109-129 | the path `cd` tries; `CdUpTarget`, `CdAbsoluteTarget`, `CdRelativeTarget` and `CdKeepsTrailingSlash` state its cases |
| Commands.CdError | v2/commands.js:135-136 | the localized `noDir` template with `{path}` substituted, or the built-in error; `CdFails` states where it appears |
| Commands.CdStep | v2/commands.js:99-144 | `cd args`; `CdMovesOrRollsBack`, `CdSucceeds`, `CdFails` and `CdConsistent` state it and `ExecuteCd` is proved equal to it |
| Commands.CdSucceeds | v2/commands.js:131-142 | a `cd` to a directory moves there, updates the prompt and prints nothing |
| Commands.CdFails | v2/commands.js:131-142 | a `cd` to anything else prints the error and stays where it was |
| Commands.CdMovesOrRollsBack | v2/commands.js:99-144 | `cd` either moves to the target directory silently or stays and prints one error line; the prompt always shows the directory and the history and gallery are untouched |
| Commands.CdConsistent | v2/commands.js:131-142 | `cd` keeps the terminal consistent, in particular the current path always names a directory |
| Commands.CdUpSucceeds | v2/commands.js:114-118 | `cd ..` always moves, to the path without its last segment, and prints nothing |
| Commands.CdUpTarget | v2/commands.js:114-118 | the target of `cd ..` is the path without its last segment |
| Commands.CdUpAtRoot | v2/commands.js:114-118 | `cd ..` at the root stays at the root and prints nothing |
| Commands.RootHasNoParent | v2/commands.js:117 | the parent of the root is the root |
| Commands.CdThenPwd | v2/commands.js:120-122 | after `cd` to an absolute directory, `pwd` prints exactly that directory below home |
| Commands.CdAbsoluteTarget | v2/commands.js:120-122 | an absolute argument is the target as typed |
| Commands.CdRelativeTarget | v2/commands.js:124-129 | a relative name is appended to the current directory, with no doubled slash at the root |
| Commands.CdKeepsTrailingSlash | v2/commands.js:120-122 | `cd /projects/` moves to the path as typed, trailing slash included, and `pwd` then shows it |
| Commands.MoveToTarget | v2/commands.js:109-129 | the current path becomes the target computed from the argument |
| Commands.ExecuteCd | v2/commands.js:99-144 | running `cd` changes the terminal as the `cd` step specifies |
| Commands.ContentMap | v2/commands.js:177-186 | exactly the three text files have content, and it is never empty |
| Commands.NoFileSpecified | v2/commands.js:153-160 | the `noFile` template as it is, or the built-in error; `CatWithoutName` states where it appears |
| Commands.NoSuchFile | v2/commands.js:188-194 | the `noFile` template with `{file}` substituted; `CatUnknownName` states where it appears |
| Commands.CatStep | v2/commands.js:149-196 | `cat args`; `CatKeepsSession`, `CatWithoutName`, `CatNamed` and `CatConsistent` state it and `ExecuteCat` is proved equal to it |
| Commands.CatName | v2/commands.js:164-167 | the `/projects` branch; `CatOpensProjectHere`, `CatNameFallsThrough` and `CatNameAddsOneRow` state it |
| Commands.CatPath | v2/commands.js:170-174 | the `projects/` branch; `CatOpensProjectPath`, `CatPathFallsThrough` and `CatPathAddsOneRow` state it |
| Commands.CatFile | v2/commands.js:177-194 | the text-file branch and the final error; `CatTextFilesPrint`, `CatUnknownName` and `CatFileAddsOneRow` state it |
| Commands.CatFileAddsOneRow | v2/commands.js:177-194 | printing a file or its error adds one row and keeps the rest of the terminal |
| Commands.CatPathAddsOneRow | v2/commands.js:170-194 | the `projects/` branch adds one row and keeps the rest of the terminal |
| Commands.CatNameAddsOneRow | v2/commands.js:164-194 | the `/projects` branch adds one row and keeps the rest of the terminal |
| Commands.CatKeepsSession | v2/commands.js:149-196 | every `cat` adds exactly one row and keeps the directory, the history and the input |
| Commands.CatWithoutName | v2/commands.js:151-161 | `cat` without a name prints the no-file error |
| Commands.CatNamed | v2/commands.js:151-153 | `cat` with a name goes on with the trimmed name |
| Commands.CatNameFallsThrough | v2/commands.js:164-167 | outside `/projects`, or for an unknown project, the `/projects` branch is skipped |
| Commands.CatPathFallsThrough | v2/commands.js:170-174 | a name not of the form `projects/<known project>` skips the `projects/` branch |
| Commands.CatOpensProjectHere | v2/commands.js:164-167 | in `/projects`, `cat <project>` opens that project's gallery at its first image |
| Commands.CatOpensProjectPath | v2/commands.js:170-174 | `cat projects/<project>` opens that project's gallery at its first image |
| Commands.CatUnknownName | v2/commands.js:188-194 | a name that is neither a project nor a text file prints the no-such-file error |
| Commands.CatConsistent | v2/commands.js:149-196 | `cat` keeps the terminal consistent |
| Commands.CatNameConsistent | v2/commands.js:164-167 | the `/projects` branch keeps the terminal consistent |
| Commands.CatPathConsistent | v2/commands.js:170-174 | the `projects/` branch keeps the terminal consistent |
| Commands.CatFileConsistent | v2/commands.js:177-194 | the file branch keeps the terminal consistent |
| Commands.CatTextFilesPrint | v2/commands.js:177-186 | `cat` of a text file prints its non-empty localized content |
| Commands.TextFilesAreNotProjectPaths | v2/commands.js:170 | no text file name starts with `projects/` |
| Commands.ExecuteCat | v2/commands.js:149-196 | running `cat` changes the terminal as the `cat` step specifies |
| Commands.Catalogue | v2/commands.js:210-217 | the catalogue has four lines per project |
| Commands.ProjectLines | v2/commands.js:211-216 | the four lines of one project; `CatalogueAt` places them in the catalogue |
| Commands.CatProjectsStep | v2/commands.js:201-223 | `cat projects`; `CatProjectsFrame` states it and `ExecuteCatProjects` is proved equal to it |
| Commands.CatalogueAt | v2/commands.js:211-216 | the k-th block of four lines is the k-th project's title, description, gallery hint and blank line |
| Commands.CatProjectsFrame | v2/commands.js:201-223 | `cat projects` prints a separator, four lines per project and a closing separator |
| Commands.CatalogueLines | v2/commands.js:207-217 | the loop builds the opening separator followed by the catalogue |
| Commands.ExecuteCatProjects | v2/commands.js:201-223 | running `cat projects` changes the terminal as its step specifies |
| Commands.PrintedLinesRebuildText | v2/commands.js:228-243 | `skills --all` and `contact` print the file's lines, which contain no new line and join back into the text |
| Commands.SkillsAllStep | v2/commands.js:228-233 | `skills --all`; `PrintedLinesRebuildText` states it and `ExecuteSkillsAll` is proved equal to it |
| Commands.ContactStep | v2/commands.js:238-243 | `contact`; `PrintedLinesRebuildText` states it and `ExecuteContact` is proved equal to it |
| Commands.ExecuteSkillsAll | v2/commands.js:228-233 | running `skills --all` changes the terminal as its step specifies |
| Commands.ExecuteContact | v2/commands.js:238-243 | running `contact` changes the terminal as its step specifies |
| Commands.HelpLines | v2/commands.js:270-287 | the help listing has sixteen lines, the title between two rules and a closing rule |
| Commands.HelpStep | v2/commands.js:265-291 | `help`; `HelpLines`, `HelpListsTable` and `HelpOmitsCatProjects` state it and `ExecuteHelp` is proved equal to it |
| Commands.ClearStep | v2/commands.js:296-301 | `clear`; `ClearRestartsNumbering` states it and `ExecuteClear` is proved equal to it |
| Commands.HelpListsTable | v2/commands.js:270-287 | every command of the table except `cat projects` heads one of the entry lines of `help` |
| Commands.HelpOmitsCatProjects | v2/commands.js:270-287 | no entry line of `help` mentions `cat projects` |
| Commands.ExecuteHelp | v2/commands.js:265-291 | running `help` changes the terminal as its step specifies |
| Commands.ClearRestartsNumbering | v2/commands.js:296-301 | after `clear` the next printed line is the only row and is numbered 0, and nothing else changed |
| Commands.ExecuteClear | v2/commands.js:296-301 | running `clear` empties the output and resets the numbering |
| Commands.KeyOf | v2/commands.js:5-302 | every command is filed in the table under its own key |
| Commands.Run | v2/commands.js:5-302 | `commands[c].execute(args)`; `RunKeepsHistory`, `RunExtendsOutput`, `RunIgnoresArgs` and `RunConsistent` state it and `Execute` is proved equal to it |
| Commands.RunKeepsHistory | v2/commands.js:5-302 | no command touches the history or the input, and only `cd` changes the directory |
| Commands.RunExtendsOutput | v2/commands.js:5-302 | every command but `clear` only appends to the output |
| Commands.RunIgnoresArgs | v2/commands.js:5-302 | every command but `cd` and `cat` ignores its argument |
| Commands.RunConsistent | v2/commands.js:5-302 | every command keeps the terminal consistent |
| Commands.Execute | v2/script.js:169-176 | running a command of the table changes the terminal as its step specifies |
| Dispatcher.DispatchIsTableLookup | v2/script.js:163-185 | nothing is found exactly when neither the line nor its first word is a key; a whole key runs without an argument, a first word with the rest |
| Dispatcher.BaseCommand | v2/script.js:163-164 | `parts[0]`; `SplitCommandLine` states it |
| Dispatcher.Arguments | v2/script.js:163-165 | `parts.slice(1).join(" ")`; `SplitCommandLine` states it |
| Dispatcher.Dispatch | v2/script.js:166-185 | the branch `executeCommand` takes; `DispatchIsTableLookup`, `DispatchCd`, `DispatchCat`, `DispatchCatProjectPath` and `DispatchWithArguments` state it |
| Dispatcher.Echo | v2/script.js:142-161 | the echo of the line and its recording; `ExecuteRecordsHistory` and `ExecuteEchoes` state it and `RecordLine` is proved equal to it |
| Dispatcher.RunLine | v2/script.js:166-185 | the command a line invokes, run; `RunLineNotFound` and `UnknownCommandReported` state it and `ExecuteLine` is proved equal to it |
| Dispatcher.ExecuteStep | v2/script.js:138-188 | `executeCommand(raw)`; `ExecuteRunsLine`, `BlankLineIgnored`, `ExecuteRecordsHistory` and `ExecuteConsistent` state it and `ExecuteCommand` is proved equal to it |
| Dispatcher.KeyDownStep | v2/script.js:194-215 | the keydown handler; `KeyDownConsistent`, `ArrowsAfterLine` and `EnterUpDown` state it and `KeyDown` is proved equal to it |
| Dispatcher.SplitCommandLine | v2/script.js:163-165 | the first word is everything before the first space and the argument everything after it |
| Dispatcher.NoKeyExtends | v2/script.js:169-174 | `cd` or `cat` followed by anything other than `projects` is not a key of the table |
| Dispatcher.DispatchCd | v2/script.js:171-172 | `cd <rest>` runs `cd` with the rest |
| Dispatcher.DispatchCat | v2/script.js:173-174 | `cat <rest>` runs `cat` with the rest, except `cat projects` |
| Dispatcher.DispatchCatProjectPath | v2/script.js:169-174 | `cat projects/<name>` runs `cat` with the path |
| Dispatcher.DispatchWithArguments | v2/script.js:175-176 | any other command word followed by text runs that command with the text |
| Dispatcher.NotFoundMessage | v2/script.js:177-184 | the error is the localized template with its first `{cmd}` replaced by the line, whose `$` patterns are substituted as `replace` does, or the built-in message when the template is missing or empty |
| Dispatcher.NotFoundQuotesLine | v2/script.js:180-183 | a line without `$` appears in the message as typed, while the line `$&` gives back the template unchanged |
| Dispatcher.ExecuteRunsLine | v2/script.js:138-188 | a non-blank line is echoed and recorded and then run |
| Dispatcher.BlankLineIgnored | v2/script.js:139-140 | a blank line changes nothing |
| Dispatcher.ExecuteRecordsHistory | v2/script.js:139-161 | a non-blank line is recorded trimmed as the newest command, the cursor is reset and the input cleared |
| Dispatcher.ExecuteEchoes | v2/script.js:142-158 | unless the line clears the terminal, the output keeps the echo of the prompt and the trimmed line |
| Dispatcher.UnknownCommandReported | v2/script.js:177-185 | an unknown line adds its echo and one error line and does not move |
| Dispatcher.EchoThenError | v2/script.js:145-184 | an echo followed by one error adds exactly those two rows, numbering only the error |
| Dispatcher.RunLineNotFound | v2/script.js:177-185 | a line nothing matches prints the not-found message as an error |
| Dispatcher.ExecuteConsistent | v2/script.js:138-188 | running a line keeps the terminal consistent |
| Dispatcher.ExecuteCommand | v2/script.js:138-188 | running a line changes the terminal as the line step specifies |
| Dispatcher.RecordLine | v2/script.js:142-161 | the input is cleared, the echo appended, the line recorded and the cursor reset |
| Dispatcher.ExecuteLine | v2/script.js:169-185 | a trimmed line runs the command it dispatches to, or reports it unknown |
| Dispatcher.ExecuteByFirstWord | v2/script.js:171-185 | a line that is not a key runs by its first word, or is reported unknown |
| Dispatcher.DispatchCdLine | v2/script.js:171-172 | a line starting with the word `cd` runs `cd` with its argument |
| Dispatcher.DispatchCatLine | v2/script.js:173-174 | a line starting with the word `cat` runs `cat` with its argument |
| Dispatcher.ExecuteCdLine | v2/script.js:171-172 | the `cd` branch runs `cd` with the argument |
| Dispatcher.ExecuteCatLine | v2/script.js:173-174 | the `cat` branch runs `cat` with the argument |
| Dispatcher.ExecuteFirstWord | v2/script.js:175-176 | the first-word branch runs that command with the argument |
| Dispatcher.ReportNotFound | v2/script.js:177-185 | the last branch prints the not-found error |
| Dispatcher.KeyDownConsistent | v2/script.js:194-215 | every key press keeps the terminal consistent |
| Dispatcher.ArrowsAfterLine | v2/script.js:197-213 | right after a line is recorded, ArrowUp shows it and ArrowDown then clears the input |
| Dispatcher.EnterUpDown | v2/script.js:194-215 | Enter on a line, then ArrowUp, shows the trimmed line again, and ArrowDown clears the input |
| Dispatcher.KeyDown | v2/script.js:194-215 | a key press changes the terminal as the keydown step specifies and keeps it valid |

## Left out

- Fetching the JSON bundles, `localStorage` and `window.location` are not modelled as I/O. Their results are parameters (`Bundles.Env`, `Site.Preferences`), and a bundle that fails to load is a missing section.
- The DOM is not modelled. Rows are values (`Terminal.Row`), not elements. The gallery's HTML, its dots, `updateGalleryImage`, `initGallery`/`updateGallery`, scrolling, focus, the theme and the link and translation passes over the page (`applyTranslations`, `applyLinks`) are left out. They only render state the model already holds.
- Asynchronous ordering is left out. Every `await` is taken to complete before the next statement, as happens for a single command typed at a time.
- `setTimeout` delays are left out for the same reason.
- Lookups by key use maps or lists of the data's own keys. A name such as `constructor` or `toString`, which JavaScript would also find on an object's prototype, is not modelled; the model treats it as absent. This applies to the command table, the project data and the content map.
- Dispatcher.Dispatch: a bare `cat` line matches the key `cat` and is run without an argument. In the source, `args.trim()` then throws on `undefined`. The model runs `cat` with an empty argument, which prints the no-file error.
- FileSystem.Walk: a walk through a file node (`cd bio.txt/x`) yields nothing, so `cd` prints its error and stays. In the source, `navigatePath` reads `files` of the file node and throws, which leaves `cd` with the unchecked path as its current directory.
- FileSystem.GetFile: when the parent of the last segment is a file, the source reads `files` of that file and throws. The model answers `None`.
- Bundles.FindProject: a language's projects are a list of entries, which could hold one name twice, while a parsed JSON object cannot. On such a list `FindProject` takes the first entry and `Catalogue` lists every copy.
- Commands.CatProjectsStep: without the `catProjects` block of the errors bundle the source throws on `catErrors.separator`. The model prints one error line (`MissingCatalogue`) instead.
- Commands.HelpStep: without the `availableCommands` bundle the source throws on `cmds.helpTitle`. The model prints one error line (`HelpUnavailable`) instead.
- Site.CreateBoxedText: an empty list has no maximum length, and `repeat` of `-Infinity` throws. The model returns `None`.
- Terminal.NextImageStep, Terminal.PrevImageStep: a gallery with no images would compute an index modulo zero (`NaN`). The model leaves such a gallery unchanged.
- V1Site.NextIndex, V1Site.PrevIndex: a project with no images, or one whose index entry is missing, is left unchanged. In the source, the index would become `NaN`.
- Terminal.Session.GoToImage, V1Site.Showcase.GoToImage: any index is accepted, out of range included, as in the source. Only `Terminal.GoToImageSelects` is stated for an index within the gallery.
- Terminal.Session.ArrowUp, Terminal.Session.ArrowDown, Terminal.HistoryUp, Terminal.HistoryDown, Dispatcher.KeyDownStep: these require the history cursor to lie between -1 and the history's last index. The source has no such guard, but every operation keeps the cursor there. Dispatcher.KeyDown requires the whole session to be consistent for the same reason.
- Site.Flatten: translation objects are modelled as nested objects with string leaves. Arrays, numbers and `null` values, which `for … in` would also visit, are not modelled.
- V1Site.Showcase.RenderProjects: the page is taken to have its projects container. Without it, the source returns before resetting any index. Re-expanding the projects that were open is DOM work and is left out. A project without images throws while its template is built; the model ends the loop there, as `loadProjects` catching the error does, and leaves out the toggles that are then never reassigned.
- Terminal.Numbered: line numbers and image indexes are unbounded integers. The source uses JavaScript numbers, which stay exact far beyond any reachable count.
- Strings.Trim: white space follows ECMAScript's list of white-space and line-terminator characters. Unicode categories are not consulted beyond that list.
