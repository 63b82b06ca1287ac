/**
 * The read-only virtual file system of the v2 terminal and its path resolver
 * (`fileSystem`, `navigatePath`, `getFile`, `listFilesInDirectory` in v2/script.js).
 */
module FileSystem {
  import opened Wrappers
  import opened Strings

  /** A node of the tree; a directory keeps its entries in the order the object literal lists them. */
  datatype Node = Directory(files: seq<Entry>) | File | Project
  datatype Entry = Entry(name: string, node: Node)

  /** The fixed tree rooted at `/`. */
  function Root(): Node {
    Directory([
      Entry("bio.txt", File),
      Entry("projects", ProjectsDir()),
      Entry("skills.txt", File),
      Entry("contact.txt", File)
    ])
  }

  function ProjectsDir(): Node {
    Directory([
      Entry("vise", Project),
      Entry("juego", Project),
      Entry("formSena", Project),
      Entry("lisa", Project)
    ])
  }

  predicate IsDirectory(n: Option<Node>) {
    n.Some? && n.value.Directory?
  }

  /** The names of a directory's entries, in order (`Object.keys(dir.files)`). */
  function Names(files: seq<Entry>): (r: seq<string>)
    ensures |r| == |files| && forall i :: 0 <= i < |files| ==> r[i] == files[i].name
  {
    if files == [] then [] else [files[0].name] + Names(files[1..])
  }

  /** The first entry called `name`, if any. */
  function Lookup(files: seq<Entry>, name: string): (r: Option<Node>)
    ensures r.None? <==> name !in Names(files)
    ensures r.Some? ==> exists i :: 0 <= i < |files| && files[i] == Entry(name, r.value)
  {
    if files == [] then None
    else if files[0].name == name then Some(files[0].node)
    else
      var r := Lookup(files[1..], name);
      assert Names(files) == [files[0].name] + Names(files[1..]);
      assert r.Some? ==> exists i :: 0 <= i < |files[1..]| && files[1..][i] == Entry(name, r.value);
      assert forall i :: 0 <= i < |files[1..]| ==> files[1..][i] == files[i + 1];
      r
  }

  /**
   * `current.files[part]`. A file or project has no `files`, where the source throws;
   * the model answers `None` there.
   */
  function Child(n: Node, name: string): (r: Option<Node>)
    ensures r.Some? ==> n.Directory? && name in Names(n.files)
    ensures n.Directory? && name in Names(n.files) ==> r.Some?
  {
    if n.Directory? then Lookup(n.files, name) else None
  }

  /** Following `segs` from `n` one child at a time; `None` at the first missing one. */
  function Walk(n: Node, segs: seq<string>): Option<Node>
    decreases |segs|
  {
    if segs == [] then Some(n)
    else
      match Child(n, segs[0])
      case None => None
      case Some(c) => Walk(c, segs[1..])
  }

  /** The segments of a path: `path.split("/").filter((p) => p)`. */
  function Segments(path: string): (r: seq<string>)
    ensures forall i :: 0 <= i < |r| ==> r[i] != "" && '/' !in r[i]
  {
    NonEmpty(Split(path, '/'))
  }

  /** What `navigatePath(path)` returns. */
  function Resolve(path: string): Option<Node> {
    if path == "/" then Some(Root()) else Walk(Root(), Segments(path))
  }

  /** `navigatePath`: walks the segments with a loop, as the source does. */
  method NavigatePath(path: string) returns (r: Option<Node>)
    ensures r == Resolve(path)
  {
    if path == "/" {
      return Some(Root());
    }
    var parts := Segments(path);
    var current := Root();
    var i := 0;
    while i < |parts|
      invariant 0 <= i <= |parts|
      invariant Walk(Root(), parts) == Walk(current, parts[i..])
    {
      var next := Child(current, parts[i]);
      if next.None? {
        return None;
      }
      assert parts[i..][1..] == parts[i + 1..];
      current := next.value;
      i := i + 1;
    }
    return Some(current);
  }

  /** Walking a concatenation walks the first part, then the second from where it ended. */
  lemma {:induction false} WalkAppend(n: Node, a: seq<string>, b: seq<string>)
    ensures Walk(n, a + b) == match Walk(n, a) case None => None case Some(m) => Walk(m, b)
  {
    if a == [] {
      assert a + b == b;
    } else {
      assert (a + b)[0] == a[0] && (a + b)[1..] == a[1..] + b;
      match Child(n, a[0])
      case None =>
      case Some(c) => WalkAppend(c, a[1..], b);
    }
  }

  /** Below the first segment, prefixes of the walk are prefixes of the walk from the child. */
  lemma WalkPrefixFromChild(n: Node, c: Node, segs: seq<string>, k: nat)
    requires segs != [] && Child(n, segs[0]) == Some(c)
    requires 1 <= k <= |segs|
    ensures Walk(n, segs[..k]) == Walk(c, segs[1..][..k - 1])
  {
    assert segs[..k][0] == segs[0] && segs[..k][1..] == segs[1..][..k - 1];
  }

  /** The node reached by the first `k` segments, when there is one, lacks segment `k`. */
  predicate MissingAt(n: Node, segs: seq<string>, k: nat)
    requires k < |segs|
  {
    Walk(n, segs[..k]).Some? && Child(Walk(n, segs[..k]).value, segs[k]).None?
  }

  /**
   * The walk fails exactly when some segment is missing below the node its prefix reached:
   * the resolver never hands back a node for a path it could not follow to its end.
   */
  lemma {:induction false} WalkFailsAtMissingSegment(n: Node, segs: seq<string>)
    ensures Walk(n, segs).None? <==> exists k: nat :: k < |segs| && MissingAt(n, segs, k)
  {
    if segs != [] {
      assert segs[..0] == [];
      match Child(n, segs[0])
      case None =>
        assert MissingAt(n, segs, 0);
      case Some(c) =>
        WalkFailsAtMissingSegment(c, segs[1..]);
        if Walk(n, segs).None? {
          var k: nat :| k < |segs[1..]| && MissingAt(c, segs[1..], k);
          WalkPrefixFromChild(n, c, segs, k + 1);
          assert MissingAt(n, segs, k + 1);
        }
        if exists k: nat :: k < |segs| && MissingAt(n, segs, k) {
          var k: nat :| k < |segs| && MissingAt(n, segs, k);
          assert k != 0;
          WalkPrefixFromChild(n, c, segs, k);
          assert MissingAt(c, segs[1..], k - 1);
        }
    }
  }

  /** A walk that ends at a directory passed only through directories: every prefix leads to one. */
  lemma {:induction false} WalkPrefixIsDirectory(n: Node, segs: seq<string>, k: nat)
    requires k <= |segs|
    requires IsDirectory(Walk(n, segs))
    ensures IsDirectory(Walk(n, segs[..k]))
  {
    WalkAppend(n, segs[..k], segs[k..]);
    assert segs[..k] + segs[k..] == segs;
    if k < |segs| {
      var m := Walk(n, segs[..k]).value;
      assert segs[k..][0] == segs[k];
      assert Child(m, segs[k]).Some?;
    }
  }

  /** Empty segments do not matter: `a/b`, `a//b` and `/a/b/` name the same segments. */
  lemma SegmentsConcat(a: string, b: string)
    ensures Segments(a + "/" + b) == Segments(a) + Segments(b)
  {
    SplitConcat(a, b, '/');
    NonEmptyConcat(Split(a, '/'), Split(b, '/'));
  }

  /** The segments of a `/`-join of proper segments are those segments. */
  lemma SegmentsJoin(parts: seq<string>)
    requires forall i :: 0 <= i < |parts| ==> parts[i] != "" && '/' !in parts[i]
    ensures Segments(Join(parts, "/")) == parts
  {
    if parts == [] {
      assert Split("", '/') == [""];
    } else {
      SplitJoin(parts, '/');
      NonEmptyKeeps(parts);
    }
  }

  lemma SegmentsOfEmpty()
    ensures Segments("") == []
  {
    assert Split("", '/') == [""];
  }

  /** A leading `/` adds no segment. */
  lemma SegmentsLeadingSlash(x: string)
    ensures Segments("/" + x) == Segments(x)
  {
    SegmentsConcat("", x);
    assert "" + "/" + x == "/" + x;
    SegmentsOfEmpty();
  }

  /** A single proper name is one segment. */
  lemma SegmentsOfName(name: string)
    requires name != "" && '/' !in name
    ensures Segments(name) == [name]
  {
    SplitNoSeparator(name, '/');
  }

  /** The special case for `/` in `navigatePath` agrees with the general walk. */
  lemma ResolveIsWalk(path: string)
    ensures Resolve(path) == Walk(Root(), Segments(path))
  {
    if path == "/" {
      SegmentsLeadingSlash("");
      assert "/" + "" == path;
      SegmentsOfEmpty();
    }
  }

  /** Paths with the same segments resolve alike, whatever their slashes. */
  lemma ResolveBySegments(p: string, q: string)
    requires Segments(p) == Segments(q)
    ensures Resolve(p) == Resolve(q)
  {
    ResolveIsWalk(p);
    ResolveIsWalk(q);
  }

  /** A name, the name between slashes and the name after a double slash are the same segments. */
  lemma NameSpellings(name: string)
    requires name != "" && '/' !in name
    ensures Segments(name) == Segments("/" + name + "/") == Segments("//" + name) == [name]
  {
    SegmentsOfName(name);
    SegmentsLeadingSlash(name + "/");
    assert "/" + name + "/" == "/" + (name + "/");
    SegmentsConcat(name, "");
    assert name + "/" + "" == name + "/";
    SegmentsOfEmpty();
    SegmentsLeadingSlash("/" + name);
    SegmentsLeadingSlash(name);
    assert "//" + name == "/" + ("/" + name);
  }

  /** `"projects"`, `"/projects/"` and `"//projects"` all reach the projects directory. */
  lemma ProjectsSpellings(name: string)
    requires name == "projects"
    ensures Resolve(name) == Some(ProjectsDir())
    ensures Resolve("/" + name + "/") == Some(ProjectsDir())
    ensures Resolve("//" + name) == Some(ProjectsDir())
  {
    NameSpellings(name);
    ResolveIsWalk(name);
    ResolveIsWalk("/" + name + "/");
    ResolveIsWalk("//" + name);
    assert Child(Root(), name) == Some(ProjectsDir());
  }

  /** `listFilesInDirectory(path)`: entry names of a directory, nothing for anything else. */
  function ListFilesInDirectory(path: string): (r: seq<string>)
    ensures IsDirectory(Resolve(path)) ==> r == Names(Resolve(path).value.files)
    ensures !IsDirectory(Resolve(path)) ==> r == []
  {
    var dir := Resolve(path);
    if !IsDirectory(dir) then [] else Names(dir.value.files)
  }

  /**
   * `getFile(path)`: resolves the parent (`"/" + parts.join("/")` without the last segment),
   * then looks the last segment up in it. A path with no segments has no file; a parent that
   * is not a directory makes the source throw and the model answer `None`.
   */
  function GetFile(path: string): Option<Node> {
    var parts := Segments(path);
    if parts == [] then None
    else
      var dir := Resolve("/" + Join(parts[..|parts| - 1], "/"));
      if dir.None? then None else Child(dir.value, parts[|parts| - 1])
  }

  /** The parent named by `"/" + init.join("/")` is the node the walk of `init` reaches. */
  lemma ResolveParent(init: seq<string>)
    requires forall i :: 0 <= i < |init| ==> init[i] != "" && '/' !in init[i]
    ensures Resolve("/" + Join(init, "/")) == Walk(Root(), init)
  {
    SegmentsJoin(init);
    SegmentsLeadingSlash(Join(init, "/"));
    ResolveIsWalk("/" + Join(init, "/"));
  }

  /** A walk is the walk to the parent followed by one child lookup. */
  lemma WalkLast(n: Node, parts: seq<string>)
    requires parts != []
    ensures Walk(n, parts) == match Walk(n, parts[..|parts| - 1])
                              case None => None
                              case Some(d) => Child(d, parts[|parts| - 1])
  {
    var init, last := parts[..|parts| - 1], parts[|parts| - 1];
    assert init + [last] == parts;
    WalkAppend(n, init, [last]);
  }

  /** `getFile` is `navigatePath` on every path that names at least one segment. */
  lemma GetFileIsResolve(path: string)
    ensures GetFile(path) == if Segments(path) == [] then None else Resolve(path)
  {
    var parts := Segments(path);
    if parts != [] {
      var init := parts[..|parts| - 1];
      assert forall i :: 0 <= i < |init| ==> init[i] == parts[i];
      ResolveParent(init);
      ResolveIsWalk(path);
      WalkLast(Root(), parts);
    }
  }
}
