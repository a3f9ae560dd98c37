/** The event asset extractor (`dev_tools/event_button_extract.py`): how
    the image files of an event folder are named, classified into Button
    and Template entries, resolved on disk with their AREA, COLOR and
    BUTTON overrides, and rendered as the lines of the generated
    `assets.py`. The file system is a map from existing paths to their
    decoded images; the image analysis is the bbox and mean colour each
    frame carries. */
module AssetExtract {
  import opened Wrappers
  import opened Geometry
  import Text

  // ---------------------------------------------------------------- names

  /** Index of the last `c` in `s`, or -1: Python's `str.rfind`. */
  function LastIndex(s: string, c: char): (r: int)
    ensures -1 <= r < |s|
    ensures r >= 0 ==> s[r] == c
    ensures forall k :: r < k < |s| ==> s[k] != c
    decreases |s|
  {
    if s == [] then -1
    else if s[|s| - 1] == c then |s| - 1
    else LastIndex(s[..|s| - 1], c)
  }

  /** Some character strictly between `lo` and `hi` is not a dot. */
  predicate NonDotBetween(p: string, lo: int, hi: int)
    requires -1 <= lo && hi <= |p|
  {
    exists k :: lo < k < hi && p[k] != '.'
  }

  /** `os.path.splitext` (POSIX): the extension runs from the last dot of the
      last path component, unless the component has only dots before it. */
  function SplitExt(p: string): (r: (string, string))
    ensures r.0 + r.1 == p
    ensures r.1 == [] || (r.1[0] == '.' && '.' !in r.1[1..] && '/' !in r.1)
  {
    var sep := LastIndex(p, '/');
    var dot := LastIndex(p, '.');
    if dot > sep && NonDotBetween(p, sep, dot) then
      assert p[..dot] + p[dot..] == p;
      assert forall k :: 0 <= k < |p[dot..]| ==> p[dot..][k] == p[dot + k];
      (p[..dot], p[dot..])
    else (p, [])
  }

  /** `ModuleExtractor.split`: the name, the sub-extension and the extension. */
  function Split(file: string): (r: (string, string, string))
    ensures r.0 + r.1 + r.2 == file
  {
    var (name, ext) := SplitExt(file);
    var (base, sub) := SplitExt(name);
    (base, sub, ext)
  }

  /** `ModuleExtractor.is_base_image`. */
  predicate IsBaseImage(file: string)
  {
    Split(file).1 == []
  }

  /** A name part with no dot and no separator. */
  predicate Plain(s: string)
  {
    '.' !in s && '/' !in s
  }

  lemma {:induction false} LastIndexAfter(a: string, c: char, b: string)
    requires c !in b
    ensures LastIndex(a + [c] + b, c) == |a|
    decreases |b|
  {
    var s := a + [c] + b;
    if b != [] {
      assert s[|s| - 1] == b[|b| - 1];
      assert b[|b| - 1] in b;
      assert s[..|s| - 1] == a + [c] + b[..|b| - 1];
      LastIndexAfter(a, c, b[..|b| - 1]);
    }
  }

  lemma {:induction false} LastIndexNone(s: string, c: char)
    requires c !in s
    ensures LastIndex(s, c) == -1
    decreases |s|
  {
    if s != [] {
      assert s[|s| - 1] in s;
      assert forall x :: x in s[..|s| - 1] ==> x in s;
      LastIndexNone(s[..|s| - 1], c);
    }
  }

  /** `root + "." + e` splits at that dot when `e` is plain and `root` has
      no separator and does not start with a dot. */
  lemma SplitExtAt(root: string, e: string)
    requires Plain(e) && |root| > 0 && root[0] != '.' && '/' !in root
    ensures SplitExt(root + "." + e) == (root, "." + e)
  {
    var p := root + "." + e;
    assert p == root + ['.'] + e;
    LastIndexAfter(root, '.', e);
    assert '/' !in p by {
      assert forall k :: 0 <= k < |p| ==> p[k] == (if k < |root| then root[k] else if k == |root| then '.' else e[k - |root| - 1]);
    }
    LastIndexNone(p, '/');
    assert p[0] != '.';
    assert NonDotBetween(p, -1, |root|);
    assert p[..|root|] == root && p[|root|..] == "." + e;
  }

  lemma SplitExtPlain(name: string)
    requires Plain(name)
    ensures SplitExt(name) == (name, [])
  {
    LastIndexNone(name, '.');
    LastIndexNone(name, '/');
  }

  /** The file name `get_file` builds: `name.genre.ext`, or `name.ext` for
      the base image. */
  function FileName(name: string, genre: string, ext: string): (f: string)
    ensures genre == [] ==> f == name + ext
    ensures genre != [] ==> f == name + "." + genre + ext
  {
    if genre != [] then name + "." + genre + ext else name + ext
  }

  /** `split` inverts the naming: it recovers the name, the genre as a
      sub-extension, and the extension, from every file `get_file` names. */
  lemma {:induction false} SplitFileName(name: string, genre: string, e: string)
    requires Plain(name) && |name| > 0 && Plain(genre) && Plain(e)
    ensures Split(FileName(name, genre, "." + e)) == (name, if genre == [] then [] else "." + genre, "." + e)
  {
    if genre == [] {
      SplitExtAt(name, e);
      SplitExtPlain(name);
    } else {
      var root := name + "." + genre;
      assert FileName(name, genre, "." + e) == root + "." + e;
      assert '/' !in root by {
        assert forall k :: 0 <= k < |root| ==> root[k] == (if k < |name| then name[k] else if k == |name| then '.' else genre[k - |name| - 1]);
      }
      assert root[0] == name[0];
      assert name[0] in name;
      SplitExtAt(root, e);
      SplitExtAt(name, genre);
    }
  }

  // ---------------------------------------------------------------- classification

  /** What `ModuleExtractor.expression` makes of one file of the folder. */
  datatype Kind = NoEntry | TemplateEntry | ButtonEntry

  /** Lines 167-177: a leading digit drops the file, a `TEMPLATE_` prefix
      makes a Template, another base image a Button, anything else nothing. */
  function Classify(file: string): (k: Kind)
    requires |file| > 0
    ensures k == NoEntry <==> Text.IsDigit(file[0]) || (!Text.StartsWith(file, "TEMPLATE_") && !IsBaseImage(file))
    ensures k == TemplateEntry <==> !Text.IsDigit(file[0]) && Text.StartsWith(file, "TEMPLATE_")
    ensures k == ButtonEntry <==> !Text.IsDigit(file[0]) && !Text.StartsWith(file, "TEMPLATE_") && IsBaseImage(file)
  {
    if Text.IsDigit(file[0]) then NoEntry
    else if Text.StartsWith(file, "TEMPLATE_") then TemplateEntry
    else if IsBaseImage(file) then ButtonEntry
    else NoEntry
  }

  /** Override images (`X.AREA.png`, `X.COLOR.gif`, ...) never become an
      entry of their own unless they are templates. */
  lemma OverrideIsNoEntry(name: string, genre: string, e: string)
    requires Plain(name) && |name| > 0 && Plain(genre) && |genre| > 0 && Plain(e)
    requires !Text.StartsWith(name, "TEMPLATE_")
    ensures Classify(FileName(name, genre, "." + e)) == NoEntry
  {
    var f := FileName(name, genre, "." + e);
    assert !IsBaseImage(f) by {
      SplitFileName(name, genre, e);
    }
    assert !Text.StartsWith(f, "TEMPLATE_") by {
      FileNameStartsWithName(name, genre, "." + e);
      StartsWithPrefix(name, "TEMPLATE_", f);
    }
  }

  /** A file name with a genre starts with its name and a dot. */
  lemma FileNameStartsWithName(name: string, genre: string, ext: string)
    requires genre != []
    ensures |FileName(name, genre, ext)| > |name|
    ensures FileName(name, genre, ext)[..|name|] == name && FileName(name, genre, ext)[|name|] == '.'
  {
    var f := FileName(name, genre, ext);
    assert f == name + "." + (genre + ext);
    DottedPrefix(name, genre + ext);
  }

  /** A name followed by a dot is a prefix of the dotted string. */
  lemma DottedPrefix(name: string, rest: string)
    ensures |name + "." + rest| > |name|
    ensures (name + "." + rest)[..|name|] == name && (name + "." + rest)[|name|] == '.'
  {
  }

  /** The base image `X.png` of a name that is no template and does not
      start with a digit becomes a Button entry. */
  lemma BaseIsButton(name: string, e: string)
    requires Plain(name) && |name| > 0 && Plain(e)
    requires !Text.IsDigit(name[0]) && !Text.StartsWith(name, "TEMPLATE_")
    ensures Classify(FileName(name, [], "." + e)) == ButtonEntry
  {
    var f := FileName(name, [], "." + e);
    SplitFileName(name, [], e);
    assert IsBaseImage(f);
    assert f[..|name|] == name && f[|name|] == '.';
    assert f[0] == name[0];
    StartsWithPrefix(name, "TEMPLATE_", f);
  }

  /** A dotted file name starts with a plain prefix only if its name does. */
  lemma StartsWithPrefix(name: string, t: string, file: string)
    requires |name| > 0 && '.' !in t
    requires |file| > |name| && file[..|name|] == name && file[|name|] == '.'
    ensures Text.StartsWith(file, t) ==> Text.StartsWith(name, t)
  {
    assert |name| < |t| ==> t[|name|] in t;
    assert |name| < |t| <= |file| ==> file[..|t|][|name|] == '.';
    assert |t| <= |name| ==> name[..|t|] == file[..|t|];
  }

  // ---------------------------------------------------------------- paths on disk

  /** `os.path.join` (POSIX) of two parts. */
  function Join(a: string, b: string): string
  {
    if Text.StartsWith(b, "/") then b
    else if a == [] || a[|a| - 1] == '/' then a + b
    else a + "/" + b
  }

  /** `Join(a, b)` ends with `b` and adds a length that depends on `b`
      only through whether `b` is absolute. */
  lemma JoinTail(a: string, b: string)
    ensures var r := Join(a, b);
            |r| == |b| + (if Text.StartsWith(b, "/") then 0 else if a == [] || a[|a| - 1] == '/' then |a| else |a| + 1)
            && r[|r| - |b|..] == b
  {
    if !Text.StartsWith(b, "/") && !(a == [] || a[|a| - 1] == '/') {
      assert (a + "/" + b)[|a| + 1..] == b;
    }
  }

  /** The last character of a join is that of its second part. */
  lemma JoinLast(a: string, b: string)
    requires |b| > 0
    ensures var r := Join(a, b);
            |r| == |b| + (if Text.StartsWith(b, "/") then 0 else if a == [] || a[|a| - 1] == '/' then |a| else |a| + 1)
            && r[|r| - 1] == b[|b| - 1]
  {
  }

  /** `.replace('\\', '/')`. */
  function Slashes(s: string): (r: string)
    ensures |r| == |s|
    decreases |s|
  {
    if s == [] then []
    else Slashes(s[..|s| - 1]) + [if s[|s| - 1] == '\\' then '/' else s[|s| - 1]]
  }

  /** Every backslash becomes a slash and nothing else changes. */
  lemma {:induction false} SlashesReplace(s: string)
    ensures '\\' !in Slashes(s)
    ensures forall i :: 0 <= i < |s| ==> Slashes(s)[i] == (if s[i] == '\\' then '/' else s[i])
    decreases |s|
  {
    if s != [] {
      var init := s[..|s| - 1];
      SlashesReplace(init);
      assert forall i :: 0 <= i < |init| ==> s[i] == init[i];
    }
  }

  /** The path of `file` in the event's asset folder. */
  function AssetPath(assets: string, event: string, file: string): string
  {
    Slashes(Join(Join(Join(assets, "story_event"), event), file))
  }

  /** Paths use `/` only, and end with the file name when it has no `\`
      and is relative. */
  lemma AssetPathShape(assets: string, event: string, file: string)
    requires '\\' !in file
    ensures var p := AssetPath(assets, event, file);
            '\\' !in p && |p| >= |file| && p[|p| - |file|..] == file
  {
    var p := Join(Join(Join(assets, "story_event"), event), file);
    JoinTail(Join(Join(assets, "story_event"), event), file);
    SlashesReplace(p);
    forall i | |p| - |file| <= i < |p|
      ensures Slashes(p)[i] == file[i - (|p| - |file|)]
    {
      assert p[i] == p[|p| - |file|..][i - (|p| - |file|)];
      assert file[i - (|p| - |file|)] in file;
    }
  }

  /** The two files `get_file` probes for a genre. */
  datatype Candidates = Candidates(png: string, gif: string)

  /** How much the folder adds in front of a name's files. */
  function PrefixLength(assets: string, event: string, name: string): nat
  {
    var j := Join(Join(assets, "story_event"), event);
    if |name| > 0 && name[0] == '/' then 0 else if j == [] || j[|j| - 1] == '/' then |j| else |j| + 1
  }

  /** The length and last character of a candidate path. */
  lemma CandidateShape(assets: string, event: string, name: string, genre: string, ext: string)
    requires |ext| == 4 && ext[0] == '.' && ext[3] != '\\'
    ensures var p := AssetPath(assets, event, FileName(name, genre, ext));
            |p| == PrefixLength(assets, event, name) + |FileName(name, genre, ext)| && p[|p| - 1] == ext[3]
  {
    var j := Join(Join(assets, "story_event"), event);
    var f := FileName(name, genre, ext);
    assert |name| > 0 ==> f[0] == name[0];
    assert |name| == 0 ==> f[0] == '.';
    assert Text.StartsWith(f, "/") <==> |name| > 0 && name[0] == '/';
    JoinLast(j, f);
    SlashesReplace(Join(j, f));
  }

  /** `get_file`'s candidates for a genre: the `.png` and `.gif` files. */
  function CandidatesOf(assets: string, event: string, name: string, genre: string): Candidates
  {
    Candidates(AssetPath(assets, event, FileName(name, genre, ".png")),
               AssetPath(assets, event, FileName(name, genre, ".gif")))
  }

  /** Candidates are told apart by length across genres and by their last
      character within one. */
  lemma CandidatesShape(assets: string, event: string, name: string, genre: string)
    ensures var c := CandidatesOf(assets, event, name, genre);
            |c.png| == |c.gif| == PrefixLength(assets, event, name) + |name| + (if genre == [] then 0 else 1 + |genre|) + 4
            && c.png[|c.png| - 1] == 'g' && c.gif[|c.gif| - 1] == 'f'
  {
    CandidateShape(assets, event, name, genre, ".png");
    CandidateShape(assets, event, name, genre, ".gif");
  }

  /** The decoded content of a file: its first frame and any further frames
      of a GIF, each with the bbox and rounded mean colour of `_extract`. */
  datatype Color = Color(r: int, g: int, b: int)
  datatype Analysis = Analysis(bbox: Area, mean: Color)
  datatype Image = Image(first: Analysis, rest: seq<Analysis>)

  /** The existing files and what each decodes to. */
  type Store = map<string, Image>

  /** `get_file` on its candidates: the `.png` if it exists, else the `.gif`
      if it exists, else the `.png` path. */
  function Probe(c: Candidates, store: Store): string
  {
    if c.png in store then c.png else if c.gif in store then c.gif else c.png
  }

  /** The probed file exists iff either candidate does; it is the `.png`
      whenever that exists, and the `.gif` only when the `.png` is missing. */
  lemma ProbeFinds(c: Candidates, store: Store)
    requires c.png != c.gif
    ensures Probe(c, store) in store <==> c.png in store || c.gif in store
    ensures Probe(c, store) == c.png || Probe(c, store) == c.gif
    ensures c.png in store ==> Probe(c, store) == c.png
    ensures Probe(c, store) == c.gif ==> c.gif in store && c.png !in store
  {
  }

  // ---------------------------------------------------------------- loading

  /** What `load('cn')` stores for one image. */
  datatype Loaded = Loaded(area: Area, color: Color, button: Area, file: string)

  /** The four candidate pairs `load` probes. */
  datatype Probes = Probes(base: Candidates, area: Candidates, color: Candidates, button: Candidates)

  function ProbesOf(assets: string, event: string, name: string): Probes
  {
    Probes(CandidatesOf(assets, event, name, ""), CandidatesOf(assets, event, name, "AREA"),
           CandidatesOf(assets, event, name, "COLOR"), CandidatesOf(assets, event, name, "BUTTON"))
  }

  /** `load` on resolved candidates: None when the base image is missing;
      otherwise the base bbox and mean, each replaced by its own override
      file when that exists, with `button` starting from the base bbox. */
  function ResolveWith(p: Probes, store: Store): Option<Loaded>
  {
    var f := Probe(p.base, store);
    if f !in store then None
    else
      var base := store[f].first;
      var areaFile := Probe(p.area, store);
      var colorFile := Probe(p.color, store);
      var buttonFile := Probe(p.button, store);
      Some(Loaded(if areaFile in store then store[areaFile].first.bbox else base.bbox,
                  if colorFile in store then store[colorFile].first.mean else base.mean,
                  if buttonFile in store then store[buttonFile].first.bbox else base.bbox,
                  f))
  }

  function Resolve(assets: string, event: string, name: string, store: Store): Option<Loaded>
  {
    ResolveWith(ProbesOf(assets, event, name), store)
  }

  /** Two candidate pairs share no file. */
  predicate Apart(c: Candidates, d: Candidates)
  {
    c.png != d.png && c.png != d.gif && c.gif != d.png && c.gif != d.gif
  }

  /** No path is probed twice. */
  predicate Distinct(p: Probes)
  {
    p.base.png != p.base.gif && p.area.png != p.area.gif && p.color.png != p.color.gif
    && p.button.png != p.button.gif
    && Apart(p.base, p.area) && Apart(p.base, p.color) && Apart(p.base, p.button)
    && Apart(p.area, p.color) && Apart(p.area, p.button) && Apart(p.color, p.button)
  }

  /** The base image and the three overrides are eight different files:
      the genres differ in length and the extensions in their last letter. */
  lemma ProbesDistinct(assets: string, event: string, name: string)
    ensures Distinct(ProbesOf(assets, event, name))
  {
    var p := ProbesOf(assets, event, name);
    var k := PrefixLength(assets, event, name) + |name|;
    CandidatesShape(assets, event, name, "");
    CandidatesShape(assets, event, name, "AREA");
    CandidatesShape(assets, event, name, "COLOR");
    CandidatesShape(assets, event, name, "BUTTON");
    assert |p.base.png| == |p.base.gif| == k + 4;
    assert |p.area.png| == |p.area.gif| == k + 9;
    assert |p.color.png| == |p.color.gif| == k + 10;
    assert |p.button.png| == |p.button.gif| == k + 11;
  }

  /** Probing ignores files other than its two candidates. */
  lemma ProbeIgnores(c: Candidates, store: Store, path: string, img: Image)
    requires path != c.png && path != c.gif
    ensures Probe(c, store[path := img]) == Probe(c, store)
    ensures (Probe(c, store) in store[path := img]) == (Probe(c, store) in store)
  {
  }

  /** Adding an override's `.png` changes its own field and nothing else; in
      particular an AREA override does not move `button`. */
  lemma OverrideOnlyItsField(p: Probes, store: Store, genre: string, img: Image)
    requires Distinct(p) && genre in {"AREA", "COLOR", "BUTTON"}
    requires ResolveWith(p, store).Some?
    ensures var path := if genre == "AREA" then p.area.png else if genre == "COLOR" then p.color.png else p.button.png;
            var before := ResolveWith(p, store).value;
            var after := ResolveWith(p, store[path := img]);
            after.Some? && after.value.file == before.file
            && after.value.area == (if genre == "AREA" then img.first.bbox else before.area)
            && after.value.color == (if genre == "COLOR" then img.first.mean else before.color)
            && after.value.button == (if genre == "BUTTON" then img.first.bbox else before.button)
  {
    var path := if genre == "AREA" then p.area.png else if genre == "COLOR" then p.color.png else p.button.png;
    ProbeIgnores(p.base, store, path, img);
    if genre != "AREA" {
      ProbeIgnores(p.area, store, path, img);
    }
    if genre != "COLOR" {
      ProbeIgnores(p.color, store, path, img);
    }
    if genre != "BUTTON" {
      ProbeIgnores(p.button, store, path, img);
    }
  }

  /** Without a BUTTON override the button is the base bbox, whatever the
      AREA override says. */
  lemma ButtonDefaultsToBase(p: Probes, store: Store)
    requires ResolveWith(p, store).Some? && p.button.png !in store && p.button.gif !in store
    ensures var r := ResolveWith(p, store).value;
            r.file in store && r.button == store[r.file].first.bbox
  {
  }

  /** The probing loop of `get_file`. */
  method GetFile(assets: string, event: string, name: string, genre: string, store: Store) returns (file: string)
    ensures file == Probe(CandidatesOf(assets, event, name, genre), store)
  {
    var exts := [".png", ".gif"];
    ghost var c := CandidatesOf(assets, event, name, genre);
    var i := 0;
    while i < |exts|
      invariant 0 <= i <= |exts|
      invariant i > 0 ==> c.png !in store
      invariant i > 1 ==> c.gif !in store
    {
      file := AssetPath(assets, event, FileName(name, genre, exts[i]));
      assert file == (if i == 0 then c.png else c.gif);
      if file in store {
        return;
      }
      i := i + 1;
    }
    file := AssetPath(assets, event, FileName(name, genre, ".png"));
  }

  /** `ImageExtractor` and, with `template` set, `TemplateExtractor`. */
  class ImageExtractor {
    const event: string
    const name: string
    const ext: string
    const template: bool
    var area: map<string, Area>
    var color: map<string, Color>
    var button: map<string, Area>
    var file: map<string, string>

    /** The four per-server dictionaries are filled together. */
    ghost predicate Valid()
      reads this
    {
      area.Keys == color.Keys && color.Keys == button.Keys && button.Keys == file.Keys
    }

    /** `__init__` up to its call of `load`. */
    constructor(event: string, file: string, template: bool)
      ensures this.event == event && this.template == template
      ensures (this.name, this.ext) == SplitExt(file)
      ensures area == map[] && color == map[] && button == map[] && this.file == map[]
      ensures Valid()
    {
      this.event := event;
      this.template := template;
      var (n, e) := SplitExt(file);
      this.name := n;
      this.ext := e;
      area, color, button, this.file := map[], map[], map[], map[];
    }

    /** `extract`: a GIF is read frame by frame and keeps the first frame's
        bbox and mean; other files, and every file of a template, are read
        as one image, which is the first frame. */
    method Extract(path: string, image: Image) returns (a: Analysis)
      ensures a == image.first
    {
      if !template && SplitExt(path).1 == ".gif" {
        var frames := [image.first] + image.rest;
        var bbox: Option<Area> := None;
        var mean: Option<Color> := None;
        var i := 0;
        while i < |frames|
          invariant 0 <= i <= |frames|
          invariant i == 0 ==> bbox == None && mean == None
          invariant i > 0 ==> bbox == Some(frames[0].bbox) && mean == Some(frames[0].mean)
        {
          if bbox == None {
            bbox := Some(frames[i].bbox);
          }
          if mean == None {
            mean := Some(frames[i].mean);
          }
          i := i + 1;
        }
        a := Analysis(bbox.value, mean.value);
      } else {
        a := image.first;
      }
    }

    /** The base image and the overrides as `load` reads them. */
    method ReadImage(assets: string, store: Store) returns (r: Option<Loaded>)
      ensures r == Resolve(assets, event, name, store)
    {
      var f := GetFile(assets, event, name, [], store);
      if f !in store {
        return None;
      }
      var base := Extract(f, store[f]);
      var a, c, b := base.bbox, base.mean, base.bbox;
      var over := GetFile(assets, event, name, "AREA", store);
      if over in store {
        var x := Extract(over, store[over]);
        a := x.bbox;
      }
      over := GetFile(assets, event, name, "COLOR", store);
      if over in store {
        var x := Extract(over, store[over]);
        c := x.mean;
      }
      over := GetFile(assets, event, name, "BUTTON", store);
      if over in store {
        var x := Extract(over, store[over]);
        b := x.bbox;
      }
      r := Some(Loaded(a, c, b, f));
    }

    /** `load(server)`: the resolved image and its overrides when the base
        image exists; otherwise a copy of the `cn` entries, which raises
        KeyError('cn') before anything is stored when there are none. */
    method Load(server: string, assets: string, store: Store) returns (missing: Option<string>)
      requires Valid()
      modifies this
      ensures Valid()
      ensures Resolve(assets, event, name, store).Some? ==>
                var r := Resolve(assets, event, name, store).value;
                missing == None && area == old(area)[server := r.area] && color == old(color)[server := r.color]
                && button == old(button)[server := r.button] && file == old(file)[server := r.file]
      ensures Resolve(assets, event, name, store).None? && "cn" in old(area) ==>
                missing == None && area == old(area)[server := old(area)["cn"]]
                && color == old(color)[server := old(color)["cn"]]
                && button == old(button)[server := old(button)["cn"]] && file == old(file)[server := old(file)["cn"]]
      ensures Resolve(assets, event, name, store).None? && "cn" !in old(area) ==>
                missing == Some("cn") && area == old(area) && color == old(color) && button == old(button)
                && file == old(file)
    {
      var r := ReadImage(assets, store);
      missing := Keep(server, r);
    }

    /** The stores of `load` once the image is read: the read values under
        `server`, or a copy of the `cn` entries, or KeyError('cn'). */
    method Keep(server: string, r: Option<Loaded>) returns (missing: Option<string>)
      requires Valid()
      modifies this
      ensures Valid()
      ensures r.Some? ==>
                missing == None && area == old(area)[server := r.value.area] && color == old(color)[server := r.value.color]
                && button == old(button)[server := r.value.button] && file == old(file)[server := r.value.file]
      ensures r.None? && "cn" in old(area) ==>
                missing == None && area == old(area)[server := old(area)["cn"]]
                && color == old(color)[server := old(color)["cn"]]
                && button == old(button)[server := old(button)["cn"]] && file == old(file)[server := old(file)["cn"]]
      ensures r.None? && "cn" !in old(area) ==>
                missing == Some("cn") && area == old(area) && color == old(color) && button == old(button)
                && file == old(file)
    {
      if r.Some? {
        area := area[server := r.value.area];
        color := color[server := r.value.color];
        button := button[server := r.value.button];
        file := file[server := r.value.file];
        missing := None;
      } else if "cn" in area {
        area := area[server := area["cn"]];
        color := color[server := color["cn"]];
        button := button[server := button["cn"]];
        file := file[server := file["cn"]];
        missing := None;
      } else {
        missing := Some("cn");
      }
    }
  }

  // ---------------------------------------------------------------- rendering

  function DigitChar(d: int): (c: char)
    requires 0 <= d < 10
    ensures Text.IsDigit(c) && c as int - '0' as int == d
  {
    (d + '0' as int) as char
  }

  /** The decimal digits of `n`. */
  function NatRepr(n: nat): (s: string)
    ensures |s| > 0 && forall i :: 0 <= i < |s| ==> Text.IsDigit(s[i])
    decreases n
  {
    if n < 10 then [DigitChar(n)] else NatRepr(n / 10) + [DigitChar(n % 10)]
  }

  /** The value of a string of decimal digits. */
  function DigitsValue(s: string): int
    decreases |s|
  {
    if s == [] then 0 else 10 * DigitsValue(s[..|s| - 1]) + (s[|s| - 1] as int - '0' as int)
  }

  /** Reading the digits back gives the number. */
  lemma {:induction false} NatReprValue(n: nat)
    ensures DigitsValue(NatRepr(n)) == n
    decreases n
  {
    var s := NatRepr(n);
    if n >= 10 {
      NatReprValue(n / 10);
      assert s[..|s| - 1] == NatRepr(n / 10);
    }
  }

  /** `repr` of an int. */
  function IntRepr(i: int): (s: string)
    ensures i < 0 ==> s == "-" + NatRepr(-i)
    ensures i >= 0 ==> s == NatRepr(i)
  {
    if i < 0 then "-" + NatRepr(-i) else NatRepr(i)
  }

  /** An int's `repr` reads back as the int. */
  lemma IntReprValue(i: int)
    ensures i >= 0 ==> DigitsValue(IntRepr(i)) == i
    ensures i < 0 ==> IntRepr(i)[0] == '-' && DigitsValue(IntRepr(i)[1..]) == -i
  {
    NatReprValue(if i < 0 then -i else i);
    if i < 0 {
      assert IntRepr(i)[1..] == NatRepr(-i);
    }
  }

  function AreaRepr(a: Area): string
  {
    "(" + IntRepr(a.x1) + ", " + IntRepr(a.y1) + ", " + IntRepr(a.x2) + ", " + IntRepr(a.y2) + ")"
  }

  function ColorRepr(c: Color): string
  {
    "(" + IntRepr(c.r) + ", " + IntRepr(c.g) + ", " + IntRepr(c.b) + ")"
  }

  /** A one-entry dictionary `{'cn': v}`. */
  function CnDict(v: string): string
  {
    "{'cn': " + v + "}"
  }

  /** `ImageExtractor.expression`: an assignment of a Button to the name. */
  function ButtonExpression(name: string, l: Loaded): (s: string)
    ensures Text.StartsWith(s, name + " = Button(area=")
  {
    var head := name + " = Button(area=";
    var s := head + (CnDict(AreaRepr(l.area)) + ", color=" + CnDict(ColorRepr(l.color)) + ", button="
                     + CnDict(AreaRepr(l.button)) + ", file=" + CnDict("'" + l.file + "'") + ")");
    assert s[..|head|] == head;
    s
  }

  /** `TemplateExtractor.expression`: an assignment of a Template to the name. */
  function TemplateExpression(name: string, file: string): (s: string)
    ensures Text.StartsWith(s, name + " = Template(file=")
  {
    var head := name + " = Template(file=";
    var s := head + (CnDict("'" + file + "'") + ")");
    assert s[..|head|] == head;
    s
  }

  /** `IMPORT_EXP` once stripped, split into lines and given an empty last line. */
  const ImportLines: seq<string> := [
    "from module.base.button import Button",
    "from module.base.template import Template",
    "",
    "# This file was automatically generated by dev_tools/event_button_extract.py.",
    "# Don't modify it manually.",
    ""]

  // ---------------------------------------------------------------- the event's lines

  /** What the loop learns about one file: its class, its name, and what
      `load` resolves for that name. */
  datatype Listed = Listed(kind: Kind, name: string, loaded: Option<Loaded>)

  function Listing(assets: string, event: string, file: string, store: Store): Listed
    requires |file| > 0
  {
    Listed(Classify(file), SplitExt(file).0, Resolve(assets, event, SplitExt(file).0, store))
  }

  predicate NonEmptyNames(files: seq<string>)
  {
    forall i :: 0 <= i < |files| ==> |files[i]| > 0
  }

  function Listings(assets: string, event: string, files: seq<string>, store: Store): (ls: seq<Listed>)
    requires NonEmptyNames(files)
    ensures |ls| == |files|
    decreases |files|
  {
    if files == [] then [] else [Listing(assets, event, files[0], store)] + Listings(assets, event, files[1..], store)
  }

  /** The line a file contributes, or the key `load` is missing. */
  function EntryLine(l: Listed): Result<Option<string>, string>
  {
    if l.kind == NoEntry then Ok(None)
    else
      match l.loaded
      case None => Err("cn")
      case Some(r) => Ok(Some(if l.kind == TemplateEntry then TemplateExpression(l.name, r.file)
                              else ButtonExpression(l.name, r)))
  }

  /** `done` followed by the lines of `rest`. */
  function After(done: seq<string>, rest: Result<seq<string>, string>): Result<seq<string>, string>
  {
    match rest
    case Err(key) => Err(key)
    case Ok(lines) => Ok(done + lines)
  }

  /** Nothing in front leaves the lines as they are. */
  lemma AfterNothing(rest: Result<seq<string>, string>)
    ensures After([], rest) == rest
  {
    if rest.Ok? {
      assert [] + rest.value == rest.value;
    }
  }

  /** The entry lines in listing order, or the first KeyError. */
  function Entries(ls: seq<Listed>): Result<seq<string>, string>
    decreases |ls|
  {
    if ls == [] then Ok([])
    else
      match EntryLine(ls[0])
      case Err(key) => Err(key)
      case Ok(line) => After(if line.Some? then [line.value] else [], Entries(ls[1..]))
  }

  /** Number of listed files that produce an entry. */
  function Classified(ls: seq<Listed>): nat
    decreases |ls|
  {
    if ls == [] then 0 else (if ls[0].kind != NoEntry then 1 else 0) + Classified(ls[1..])
  }

  /** One entry per classified file, and a KeyError exactly when some
      classified file has no base image on disk. */
  lemma {:induction false} EntriesShape(ls: seq<Listed>)
    ensures Entries(ls).Ok? ==> |Entries(ls).value| == Classified(ls)
    ensures Entries(ls).Err? <==> exists k :: 0 <= k < |ls| && ls[k].kind != NoEntry && ls[k].loaded.None?
    decreases |ls|
  {
    if ls != [] {
      var rest := ls[1..];
      EntriesShape(rest);
      assert forall k :: 0 <= k < |rest| ==> rest[k] == ls[k + 1];
      if exists k :: 0 <= k < |ls| && ls[k].kind != NoEntry && ls[k].loaded.None? {
        var k :| 0 <= k < |ls| && ls[k].kind != NoEntry && ls[k].loaded.None?;
        if k > 0 {
          assert rest[k - 1] == ls[k];
        }
      }
    }
  }

  /** Each entry names its file: a Button or Template assignment to the
      name `splitext` gives. */
  lemma {:induction false} EntriesNamed(ls: seq<Listed>)
    requires Entries(ls).Ok?
    ensures forall k :: 0 <= k < |ls| && ls[k].kind == ButtonEntry ==> ls[k].loaded.Some?
    ensures forall line :: line in Entries(ls).value ==>
              exists k :: 0 <= k < |ls| && ls[k].kind != NoEntry
                          && (Text.StartsWith(line, ls[k].name + " = Button(area=")
                              || Text.StartsWith(line, ls[k].name + " = Template(file="))
    decreases |ls|
  {
    EntriesShape(ls);
    if ls != [] {
      var rest := ls[1..];
      EntriesNamed(rest);
      assert forall k :: 0 <= k < |rest| ==> rest[k] == ls[k + 1];
      forall line | line in Entries(ls).value
        ensures exists k :: 0 <= k < |ls| && ls[k].kind != NoEntry
                            && (Text.StartsWith(line, ls[k].name + " = Button(area=")
                                || Text.StartsWith(line, ls[k].name + " = Template(file="))
      {
        var first := EntryLine(ls[0]).value;
        if first.Some? && line == first.value {
          assert ls[0].kind != NoEntry;
        } else {
          assert line in Entries(rest).value;
          var k :| 0 <= k < |rest| && rest[k].kind != NoEntry
                   && (Text.StartsWith(line, rest[k].name + " = Button(area=")
                       || Text.StartsWith(line, rest[k].name + " = Template(file="));
          assert ls[k + 1] == rest[k];
        }
      }
    }
  }

  /** One file of the listing, as the loop body handles it. */
  method FileEntry(assets: string, event: string, f: string, store: Store) returns (r: Result<Option<string>, string>)
    requires |f| > 0
    ensures r == EntryLine(Listing(assets, event, f, store))
  {
    var kind := Classify(f);
    if kind == NoEntry {
      return Ok(None);
    }
    var e := new ImageExtractor(event, f, kind == TemplateEntry);
    var missing := e.Load("cn", assets, store);
    if missing.Some? {
      return Err(missing.value);
    }
    if kind == TemplateEntry {
      r := Ok(Some(TemplateExpression(e.name, e.file["cn"])));
    } else {
      r := Ok(Some(ButtonExpression(e.name, Loaded(e.area["cn"], e.color["cn"], e.button["cn"], e.file["cn"]))));
    }
  }

  lemma EntriesUnfold(l: Listed, ls: seq<Listed>, lines: seq<string>)
    ensures EntryLine(l).Err? ==> After(lines, Entries([l] + ls)) == Err(EntryLine(l).error)
    ensures EntryLine(l).Ok? ==>
              var line := EntryLine(l).value;
              After(lines, Entries([l] + ls)) == After(lines + (if line.Some? then [line.value] else []), Entries(ls))
  {
    assert ([l] + ls)[0] == l && ([l] + ls)[1..] == ls;
    var r := EntryLine(l);
    if r.Ok? {
      var rest := Entries(ls);
      var one := if r.value.Some? then [r.value.value] else [];
      if rest.Ok? {
        assert lines + (one + rest.value) == (lines + one) + rest.value;
      }
    }
  }

  /** One turn of the listing loop: the line of `files[i]` joins `lines`,
      or its KeyError ends the listing. */
  method EntryStep(assets: string, event: string, files: seq<string>, store: Store, i: nat, lines: seq<string>)
    returns (r: Result<Option<string>, string>, next: seq<string>)
    requires NonEmptyNames(files) && i < |files|
    ensures r.Err? ==> After(lines, Entries(Listings(assets, event, files[i..], store))) == Err(r.error)
    ensures r.Ok? ==> After(lines, Entries(Listings(assets, event, files[i..], store)))
                      == After(next, Entries(Listings(assets, event, files[i + 1..], store)))
  {
    r := FileEntry(assets, event, files[i], store);
    assert files[i..][0] == files[i] && files[i..][1..] == files[i + 1..];
    EntriesUnfold(Listing(assets, event, files[i], store), Listings(assets, event, files[i + 1..], store), lines);
    next := lines + (if r.Ok? && r.value.Some? then [r.value.value] else []);
  }

  /** `ModuleExtractor.expression` over the folder listing `files`: the
      header lines followed by the entries, or the KeyError of the first
      file whose image is missing. */
  method ModuleExpression(assets: string, event: string, files: seq<string>, store: Store)
    returns (exp: Result<seq<string>, string>)
    requires NonEmptyNames(files)
    ensures exp == After(ImportLines, Entries(Listings(assets, event, files, store)))
  {
    var lines: seq<string> := [];
    var i := 0;
    assert files[0..] == files;
    AfterNothing(Entries(Listings(assets, event, files, store)));
    while i < |files|
      invariant 0 <= i <= |files|
      invariant Entries(Listings(assets, event, files, store)) == After(lines, Entries(Listings(assets, event, files[i..], store)))
    {
      var r;
      r, lines := EntryStep(assets, event, files, store, i, lines);
      if r.Err? {
        return Err(r.error);
      }
      i := i + 1;
    }
    assert files[i..] == [] && lines + [] == lines;
    exp := Ok(ImportLines + lines);
  }
}
