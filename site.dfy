/**
 * The shared page helpers of script.js: the ASCII box around translated texts, the image path
 * resolver with the site version taken from the page's path, the language and version toggles
 * over the stored preferences, and the dotted keys under which nested translations are applied.
 */
module Site {
  import opened Wrappers
  import opened Strings
  import Bundles

  // ---------------------------------------------------------------------------
  // createBoxedText
  // ---------------------------------------------------------------------------

  /**
   * `Math.max(...texts.map(t => t.length))` for a non-empty list, lengths counted in UTF-16 code
   * units as JavaScript counts them.
   */
  function MaxLength(texts: seq<string>): (m: nat)
    requires texts != []
    ensures forall i :: 0 <= i < |texts| ==> Utf16Length(texts[i]) <= m
    ensures exists i :: 0 <= i < |texts| && Utf16Length(texts[i]) == m
  {
    if |texts| == 1 then Utf16Length(texts[0])
    else
      var m := MaxLength(texts[1..]);
      assert forall i :: 1 <= i < |texts| ==> texts[i] == texts[1..][i - 1];
      if Utf16Length(texts[0]) >= m then Utf16Length(texts[0]) else m
  }

  /** One text between the side borders, padded on both sides. */
  function Framed(t: string, padding: nat): string {
    "║" + Repeat(' ', padding) + t + Repeat(' ', padding) + "║"
  }

  /** Padding and side borders add `2 * padding + 2` code units to the text. */
  lemma FramedWidth(t: string, padding: nat)
    ensures Utf16Length(Framed(t, padding)) == Utf16Length(t) + 2 * padding + 2
  {
    var pad := Repeat(' ', padding);
    Utf16Plain(pad);
    Utf16Plain("║");
    Utf16Concat("║", pad);
    Utf16Concat("║" + pad, t);
    Utf16Concat("║" + pad + t, pad);
    Utf16Concat("║" + pad + t + pad, "║");
  }

  function FramedAll(texts: seq<string>, padding: nat): (r: seq<string>)
    ensures |r| == |texts|
    ensures forall i :: 0 <= i < |texts| ==> r[i] == Framed(texts[i], padding)
  {
    seq(|texts|, i requires 0 <= i < |texts| => Framed(texts[i], padding))
  }

  /** A horizontal border: a corner, `width` double rules, a corner. */
  function Border(left: char, width: nat, right: char): string {
    [left] + Repeat('═', width) + [right]
  }

  /** The box-drawing characters are single code units: a border is `width + 2` of them. */
  lemma BorderWidth(left: char, width: nat, right: char)
    requires !Astral(left) && !Astral(right)
    ensures Utf16Length(Border(left, width, right)) == width + 2
  {
    Utf16Plain(Border(left, width, right));
  }

  /**
   * `createBoxedText(texts, padding)`: a top border, the framed texts joined by new lines, and a
   * bottom border. An empty list has no maximum length and makes `repeat` throw: `None`.
   */
  function CreateBoxedText(texts: Lines, padding: nat): (r: Option<seq<string>>)
    ensures r.None? <==> texts.AsList() == []
    ensures r.Some? ==> |r.value| == 3
    ensures r.Some? ==> r.value[1] == Join(FramedAll(texts.AsList(), padding), "\n")
    ensures r.Some? ==>
      var w := MaxLength(texts.AsList()) + 2 * padding;
      r.value[0] == Border('╔', w, '╗') && r.value[2] == Border('╚', w, '╝')
  {
    var ts := texts.AsList();
    if ts == [] then None
    else
      var w := MaxLength(ts) + padding * 2;
      Some([Border('╔', w, '╗'), Join(FramedAll(ts, padding), "\n"), Border('╚', w, '╝')])
  }

  /**
   * Measured in UTF-16 code units, the borders are exactly as wide as the widest framed line;
   * narrower texts are not padded out to the right border.
   */
  lemma BoxFitsWidestLine(texts: Lines, padding: nat)
    requires texts.AsList() != []
    ensures var box := CreateBoxedText(texts, padding).value;
      Utf16Length(box[0]) == Utf16Length(box[2]) &&
      (forall i :: 0 <= i < |texts.AsList()| ==>
         Utf16Length(Framed(texts.AsList()[i], padding)) <= Utf16Length(box[0])) &&
      (exists i :: 0 <= i < |texts.AsList()| &&
         Utf16Length(Framed(texts.AsList()[i], padding)) == Utf16Length(box[0]))
  {
    var ts := texts.AsList();
    var m := MaxLength(ts);
    var w := m + 2 * padding;
    BorderWidth('╔', w, '╗');
    BorderWidth('╚', w, '╝');
    forall i | 0 <= i < |ts|
      ensures Utf16Length(Framed(ts[i], padding)) == Utf16Length(ts[i]) + 2 * padding + 2
    {
      FramedWidth(ts[i], padding);
    }
    var i :| 0 <= i < |ts| && Utf16Length(ts[i]) == m;
    assert Utf16Length(Framed(ts[i], padding)) == w + 2;
  }

  /** A single string is boxed as a one-element list, and its box is flush on both sides. */
  lemma BoxOfOneString(s: string, padding: nat)
    ensures CreateBoxedText(Text(s), padding) == CreateBoxedText(List([s]), padding)
    ensures var box := CreateBoxedText(Text(s), padding).value;
      box[1] == Framed(s, padding) &&
      Utf16Length(box[0]) == Utf16Length(box[1]) == Utf16Length(s) + 2 * padding + 2
  {
    FramedWidth(s, padding);
    BorderWidth('╔', MaxLength([s]) + 2 * padding, '╗');
  }

  /** When no text holds a new line, splitting the middle element gives back the framed lines. */
  lemma BoxMiddleSplitsIntoLines(texts: Lines, padding: nat)
    requires texts.AsList() != []
    requires forall i :: 0 <= i < |texts.AsList()| ==> '\n' !in texts.AsList()[i]
    ensures Split(CreateBoxedText(texts, padding).value[1], '\n') == FramedAll(texts.AsList(), padding)
  {
    var framed := FramedAll(texts.AsList(), padding);
    forall i | 0 <= i < |framed|
      ensures '\n' !in framed[i]
    {
      assert framed[i] == "║" + Repeat(' ', padding) + texts.AsList()[i] + Repeat(' ', padding) + "║";
    }
    SplitJoin(framed, '\n');
  }

  // ---------------------------------------------------------------------------
  // getImagePath
  // ---------------------------------------------------------------------------

  /** `window.location.pathname.includes("/v2/") ? "v2" : "v1"`. */
  function PageVersion(pagePath: string): (v: string)
    ensures v == "v1" || v == "v2"
    ensures v == "v2" <==> Contains(pagePath, "/v2/")
  {
    if Contains(pagePath, "/v2/") then "v2" else "v1"
  }

  /** An image reference used as is: site-absolute or a URL. */
  predicate IsAbsoluteImage(name: string) {
    StartsWith(name, "/") || StartsWith(name, "http")
  }

  /** `getImagePath(imageName)`, the page's path given as a parameter. */
  function GetImagePath(name: string, pagePath: string): (r: string)
    ensures IsAbsoluteImage(r)
    ensures IsAbsoluteImage(name) ==> r == name
    ensures !IsAbsoluteImage(name) && Contains(name, "public/") ==> r == "/" + name
    ensures !IsAbsoluteImage(name) && !Contains(name, "public/") ==>
      r == "/" + PageVersion(pagePath) + "/images/" + name
  {
    if IsAbsoluteImage(name) then name
    else if Contains(name, "public/") then "/" + name
    else "/" + PageVersion(pagePath) + "/images/" + name
  }

  /** Resolving a resolved path changes nothing. */
  lemma ImagePathIdempotent(name: string, pagePath: string)
    ensures GetImagePath(GetImagePath(name, pagePath), pagePath) == GetImagePath(name, pagePath)
  {
  }

  /** Every resolved image name ends with the name it was given. */
  lemma ImagePathKeepsName(name: string, pagePath: string)
    ensures var r := GetImagePath(name, pagePath);
      |name| <= |r| && r[|r| - |name|..] == name
  {
    var r := GetImagePath(name, pagePath);
    if !IsAbsoluteImage(name) {
      if Contains(name, "public/") {
        assert r == "/" + name;
      } else {
        assert r == ("/" + PageVersion(pagePath) + "/images/") + name;
      }
    }
  }

  // ---------------------------------------------------------------------------
  // toggleLang and toggleVersion
  // ---------------------------------------------------------------------------

  /**
   * The value after a toggle between `first` and `second`: a missing value reads as `first`, and
   * only `first` goes to `second`; anything else, `second` included, goes to `first`.
   * `toggleLang` toggles `"es"` and `"en"`, `toggleVersion` toggles `"v1"` and `"v2"`.
   */
  function Toggle(stored: Option<string>, first: string, second: string): (next: string)
    requires first != second
    ensures next == first || next == second
    ensures next == second <==> Bundles.OrElse(stored, first) == first
  {
    if Bundles.OrElse(stored, first) == first then second else first
  }

  /** `/${next}/index.html`. */
  function VersionPage(version: string): string {
    "/" + version + "/index.html"
  }

  /** After the first toggle the value alternates: two more toggles return to it. */
  lemma TogglesBack(stored: Option<string>, first: string, second: string)
    requires first != second && first != "" && second != ""
    ensures Toggle(Some(Toggle(Some(Toggle(stored, first, second)), first, second)), first, second)
         == Toggle(stored, first, second)
    ensures Toggle(Some(Toggle(Some(first), first, second)), first, second) == first
    ensures Bundles.OrElse(stored, first) in {first, second} ==>
      Toggle(stored, first, second) != Bundles.OrElse(stored, first)
  {
  }

  /** The `lang` and `version` entries of `localStorage` and the page the window is on. */
  class Preferences {
    var lang: Option<string>
    var version: Option<string>
    var location: string

    constructor(lang: Option<string>, version: Option<string>, location: string)
      ensures this.lang == lang && this.version == version && this.location == location
    {
      this.lang := lang;
      this.version := version;
      this.location := location;
    }

    /** `window.toggleLang`: stores the other language; the page stays. */
    method ToggleLang()
      modifies this
      ensures lang == Some(Toggle(old(lang), "es", "en"))
      ensures version == old(version) && location == old(location)
    {
      var cur := Bundles.OrElse(lang, "es");
      var next := if cur == "es" then "en" else "es";
      lang := Some(next);
    }

    /** `toggleVersion`: stores the other version and moves to that version's page. */
    method ToggleVersion()
      modifies this
      ensures version == Some(Toggle(old(version), "v1", "v2"))
      ensures location == VersionPage(Toggle(old(version), "v1", "v2"))
      ensures lang == old(lang)
    {
      var current := Bundles.OrElse(version, "v1");
      var next := if current == "v1" then "v2" else "v1";
      version := Some(next);
      location := "/" + next + "/index.html";
    }
  }

  // ---------------------------------------------------------------------------
  // applyNestedTranslations: dotted keys
  // ---------------------------------------------------------------------------

  /** A translation section: nested objects whose leaves are the texts. */
  datatype Json = Leaf(text: string) | Object(members: seq<Member>)
  datatype Member = Member(key: string, value: Json)

  /** One text applied to the element whose `data-i18n` is `key`. */
  datatype Assignment = Assignment(key: string, text: string)

  /** `prefix ? `${prefix}.${key}` : key`. */
  function FullKey(prefix: string, key: string): string {
    if prefix == "" then key else prefix + "." + key
  }

  /** The texts of `applyNestedTranslations(members, prefix)`, in visiting order, with their keys. */
  function Flatten(members: seq<Member>, prefix: string): seq<Assignment>
    decreases members
  {
    if members == [] then []
    else
      var m := members[0];
      var full := FullKey(prefix, m.key);
      var first := match m.value
        case Leaf(t) => [Assignment(full, t)]
        case Object(children) => Flatten(children, full);
      first + Flatten(members[1..], prefix)
  }

  /** A leaf of a section and the keys leading to it from the section's top. */
  datatype LeafPath = LeafPath(path: seq<string>, text: string)

  /** The leaves of a section in order, each with its key path: the reference for `Flatten`. */
  function Leaves(members: seq<Member>): seq<LeafPath>
    decreases members
  {
    if members == [] then []
    else
      var m := members[0];
      var first := match m.value
        case Leaf(t) => [LeafPath([m.key], t)]
        case Object(children) => Prefixed(m.key, Leaves(children));
      first + Leaves(members[1..])
  }

  function Prefixed(key: string, leaves: seq<LeafPath>): (r: seq<LeafPath>)
    ensures |r| == |leaves|
    ensures forall i :: 0 <= i < |leaves| ==> r[i] == LeafPath([key] + leaves[i].path, leaves[i].text)
  {
    seq(|leaves|, i requires 0 <= i < |leaves| => LeafPath([key] + leaves[i].path, leaves[i].text))
  }

  /** Each leaf's assignment under the dotted spelling of `prefix` followed by its path. */
  function Keyed(prefix: seq<string>, leaves: seq<LeafPath>): (r: seq<Assignment>)
    ensures |r| == |leaves|
    ensures forall i :: 0 <= i < |leaves| ==> r[i] == Assignment(Join(prefix + leaves[i].path, "."), leaves[i].text)
  {
    seq(|leaves|, i requires 0 <= i < |leaves| => Assignment(Join(prefix + leaves[i].path, "."), leaves[i].text))
  }

  /** Every key of the section, at every depth, is non-empty. */
  predicate KeysNonEmpty(members: seq<Member>)
    decreases members
  {
    members != [] ==>
      members[0].key != "" &&
      (match members[0].value case Leaf(_) => true case Object(children) => KeysNonEmpty(children)) &&
      KeysNonEmpty(members[1..])
  }

  lemma {:induction false} JoinSnoc(parts: seq<string>, last: string, sep: string)
    requires parts != []
    ensures Join(parts + [last], sep) == Join(parts, sep) + sep + last
    decreases |parts|
  {
    if |parts| > 1 {
      assert (parts + [last])[1..] == parts[1..] + [last];
      JoinSnoc(parts[1..], last, sep);
    }
  }

  lemma FullKeyIsJoin(prefix: seq<string>, key: string)
    requires forall i :: 0 <= i < |prefix| ==> prefix[i] != ""
    ensures FullKey(Join(prefix, "."), key) == Join(prefix + [key], ".")
  {
    if prefix == [] {
      assert prefix + [key] == [key];
    } else {
      assert |Join(prefix, ".")| >= |prefix[0]| by {
        if |prefix| > 1 {
          assert Join(prefix, ".") == prefix[0] + "." + Join(prefix[1..], ".");
        }
      }
      JoinSnoc(prefix, key, ".");
    }
  }

  lemma KeyedConcat(prefix: seq<string>, a: seq<LeafPath>, b: seq<LeafPath>)
    ensures Keyed(prefix, a + b) == Keyed(prefix, a) + Keyed(prefix, b)
  {
  }

  lemma KeyedPrefixed(prefix: seq<string>, key: string, leaves: seq<LeafPath>)
    ensures Keyed(prefix + [key], leaves) == Keyed(prefix, Prefixed(key, leaves))
  {
    forall i | 0 <= i < |leaves|
      ensures prefix + [key] + leaves[i].path == prefix + ([key] + leaves[i].path)
    {
    }
  }

  /**
   * With non-empty keys, a nested text is applied under its key path joined by ".", starting
   * from the dotted spelling of the path it was reached by.
   */
  lemma {:induction false} FlattenJoinsKeyPaths(members: seq<Member>, prefix: seq<string>)
    requires KeysNonEmpty(members)
    requires forall i :: 0 <= i < |prefix| ==> prefix[i] != ""
    ensures Flatten(members, Join(prefix, ".")) == Keyed(prefix, Leaves(members))
    decreases members
  {
    if members != [] {
      var m := members[0];
      var rest := Leaves(members[1..]);
      FullKeyIsJoin(prefix, m.key);
      FlattenJoinsKeyPaths(members[1..], prefix);
      match m.value {
        case Leaf(t) =>
          var first := [LeafPath([m.key], t)];
          assert Leaves(members) == first + rest;
          KeyedConcat(prefix, first, rest);
        case Object(children) =>
          var first := Prefixed(m.key, Leaves(children));
          assert Leaves(members) == first + rest;
          FlattenJoinsKeyPaths(children, prefix + [m.key]);
          KeyedPrefixed(prefix, m.key, Leaves(children));
          KeyedConcat(prefix, first, rest);
      }
    }
  }

  /** `applyNestedTranslations(section)`: every text goes to its key path joined by ".". */
  lemma SectionKeysAreDottedPaths(members: seq<Member>)
    requires KeysNonEmpty(members)
    ensures var applied := Flatten(members, "");
      var leaves := Leaves(members);
      |applied| == |leaves| &&
      forall i :: 0 <= i < |leaves| ==> applied[i] == Assignment(Join(leaves[i].path, "."), leaves[i].text)
  {
    FlattenJoinsKeyPaths(members, []);
    forall i | 0 <= i < |Leaves(members)|
      ensures [] + Leaves(members)[i].path == Leaves(members)[i].path
    {
    }
  }
}
