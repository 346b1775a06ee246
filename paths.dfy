/** POSIX path handling as the filesystem backend uses it: `path.join`
    (with `..`, `.` and repeated slashes normalized) and `path.basename`.
    An absolute path is a sequence of segments below the root. */
module Paths {

  import opened Strings

  type Segments = seq<string>

  /** A segment that names an entry: not empty, not `.` or `..`, no slash. */
  predicate PlainName(s: string)
  {
    s != "" && s != "." && s != ".." && '/' !in s
  }

  predicate AllPlain(segs: Segments)
  {
    forall k :: 0 <= k < |segs| ==> PlainName(segs[k])
  }

  /** Node's `normalizeString`: the segments of `parts` applied, left to
      right, to `acc`. Empty and `.` segments vanish; `..` removes the last
      segment, or is kept when there is nothing to remove and the path is
      relative. */
  function Normalize(acc: Segments, parts: seq<string>, allowAboveRoot: bool): Segments
    decreases |parts|
  {
    if parts == [] then acc
    else
      var p := parts[0];
      if p == "" || p == "." then Normalize(acc, parts[1..], allowAboveRoot)
      else if p == ".." then
        if |acc| > 0 && acc[|acc| - 1] != ".." then Normalize(acc[..|acc| - 1], parts[1..], allowAboveRoot)
        else if allowAboveRoot then Normalize(acc + [".."], parts[1..], allowAboveRoot)
        else Normalize(acc, parts[1..], allowAboveRoot)
      else Normalize(acc + [p], parts[1..], allowAboveRoot)
  }

  /** `path.join(cwd, rel)` for an absolute, normalized working directory. */
  function AbsPath(cwd: Segments, rel: string): Segments
  {
    Normalize(cwd, Split(rel, '/'), false)
  }

  /** Resolved paths consist of plain segments only. */
  lemma AbsPathPlain(cwd: Segments, rel: string)
    requires AllPlain(cwd)
    ensures AllPlain(AbsPath(cwd, rel))
  {
    SplitJoin(rel, '/');
    NormalizePlain(cwd, Split(rel, '/'), false);
  }

  /** Without `..` above the root, normalizing keeps every segment plain. */
  lemma {:induction false} NormalizePlain(acc: Segments, parts: seq<string>, allowAboveRoot: bool)
    requires AllPlain(acc) && !allowAboveRoot
    requires forall k :: 0 <= k < |parts| ==> '/' !in parts[k]
    ensures AllPlain(Normalize(acc, parts, allowAboveRoot))
    decreases |parts|
  {
    if parts != [] {
      var p := parts[0];
      if p == "" || p == "." || p == ".." {
        NormalizePlain(if p == ".." && |acc| > 0 then acc[..|acc| - 1] else acc, parts[1..], allowAboveRoot);
      } else {
        NormalizePlain(acc + [p], parts[1..], allowAboveRoot);
      }
    }
  }

  /** Plain segments are appended as they are. */
  lemma {:induction false} NormalizeAllPlain(acc: Segments, parts: seq<string>, allowAboveRoot: bool)
    requires AllPlain(parts)
    ensures Normalize(acc, parts, allowAboveRoot) == acc + parts
    decreases |parts|
  {
    if parts != [] {
      NormalizeAllPlain(acc + [parts[0]], parts[1..], allowAboveRoot);
      assert acc + [parts[0]] + parts[1..] == acc + parts;
    }
  }

  /** A plain segment at the end is appended after the rest is normalized. */
  lemma {:induction false} NormalizeSnoc(acc: Segments, parts: seq<string>, name: string, allowAboveRoot: bool)
    requires PlainName(name)
    ensures Normalize(acc, parts + [name], allowAboveRoot) == Normalize(acc, parts, allowAboveRoot) + [name]
    decreases |parts|
  {
    if parts == [] {
      assert parts + [name] == [name];
    } else {
      assert (parts + [name])[0] == parts[0];
      assert (parts + [name])[1..] == parts[1..] + [name];
      var p := parts[0];
      if p == "" || p == "." {
        NormalizeSnoc(acc, parts[1..], name, allowAboveRoot);
      } else if p == ".." {
        if |acc| > 0 && acc[|acc| - 1] != ".." {
          NormalizeSnoc(acc[..|acc| - 1], parts[1..], name, allowAboveRoot);
        } else if allowAboveRoot {
          NormalizeSnoc(acc + [".."], parts[1..], name, allowAboveRoot);
        } else {
          NormalizeSnoc(acc, parts[1..], name, allowAboveRoot);
        }
      } else {
        NormalizeSnoc(acc + [p], parts[1..], name, allowAboveRoot);
      }
    }
  }

  /** Node's `path.normalize` for a non-empty path. */
  function NormalizeString(path: string): string
    requires path != ""
  {
    var absolute := path[0] == '/';
    var trailing := path[|path| - 1] == '/';
    var body := Join(Normalize([], Split(path, '/'), !absolute), "/");
    if body == "" then (if absolute then "/" else if trailing then "./" else ".")
    else
      var withTrailing := if trailing then body + "/" else body;
      if absolute then "/" + withTrailing else withTrailing
  }

  /** `path.join(a, b)`: the non-empty arguments joined by a slash, then
      normalized; "." when both are empty. */
  function PathJoin(a: string, b: string): string
  {
    var joined := if a == "" then b else if b == "" then a else a + "/" + b;
    if joined == "" then "." else NormalizeString(joined)
  }

  /** `path.basename(p)`: the last segment, trailing slashes ignored. */
  function Basename(p: string): string
  {
    LastNonEmpty(Split(p, '/'))
  }

  function LastNonEmpty(parts: seq<string>): string
    decreases |parts|
  {
    if parts == [] then ""
    else if parts[|parts| - 1] != "" then parts[|parts| - 1]
    else LastNonEmpty(parts[..|parts| - 1])
  }

  /** A relative path already in normal form: plain segments joined by
      single slashes. */
  predicate Canonical(p: string)
  {
    p != "" && AllPlain(Split(p, '/'))
  }

  /** Joining "" with an entry name gives the name. */
  lemma JoinEntryAtTop(cwd: Segments, name: string)
    requires PlainName(name)
    ensures PathJoin("", name) == name
    ensures AbsPath(cwd, PathJoin("", name)) == AbsPath(cwd, "") + [name]
  {
    SplitNone(name, '/');
    assert name[0] != '/' && name[|name| - 1] != '/';
    NormalizeAllPlain([], [name], true);
    assert Join([name], "/") == name;
    assert Split("", '/') == [""];
    assert Normalize(cwd, [""], false) == cwd;
    NormalizeAllPlain(cwd, [name], false);
  }

  /** The pieces of "dir/name" for a canonical directory. */
  lemma SplitEntry(dir: string, name: string)
    requires Canonical(dir) && PlainName(name)
    ensures Split(dir + "/" + name, '/') == Split(dir, '/') + [name]
    ensures AllPlain(Split(dir + "/" + name, '/'))
    ensures (dir + "/" + name)[0] != '/' && (dir + "/" + name)[|dir + "/" + name| - 1] != '/'
  {
    assert dir + "/" + name == dir + ['/'] + name;
    SplitSnoc(dir, '/', name);
    var parts := Split(dir, '/');
    SplitHead(dir, '/');
    assert parts[0] != "";
    assert IndexOf(dir, '/') > 0;
  }

  /** Joining a canonical directory with an entry name gives "dir/name". */
  lemma JoinEntryBelow(cwd: Segments, dir: string, name: string)
    requires Canonical(dir) && PlainName(name)
    ensures PathJoin(dir, name) == dir + "/" + name
    ensures AbsPath(cwd, PathJoin(dir, name)) == AbsPath(cwd, dir) + [name]
  {
    var joined := dir + "/" + name;
    var parts := Split(dir, '/');
    SplitEntry(dir, name);
    SplitJoin(dir, '/');
    NormalizeAllPlain([], parts + [name], true);
    JoinSnoc(parts, "/", name);
    assert [] + (parts + [name]) == parts + [name];
    assert Normalize([], Split(joined, '/'), true) == parts + [name];
    assert Join(parts + [name], "/") == joined;
    assert NormalizeString(joined) == joined;
    NormalizeSnoc(cwd, parts, name, false);
  }

  /** Joining a canonical directory (or "") with an entry name resolves to
      the directory's path extended by the name, and the name is its
      basename. */
  lemma JoinEntry(cwd: Segments, dir: string, name: string)
    requires dir == "" || Canonical(dir)
    requires PlainName(name)
    ensures PathJoin(dir, name) == if dir == "" then name else dir + "/" + name
    ensures AbsPath(cwd, PathJoin(dir, name)) == AbsPath(cwd, dir) + [name]
    ensures Basename(PathJoin(dir, name)) == name
  {
    if dir == "" {
      JoinEntryAtTop(cwd, name);
      SplitNone(name, '/');
    } else {
      JoinEntryBelow(cwd, dir, name);
      SplitEntry(dir, name);
    }
  }

  /** Joining two canonical relative paths puts one slash between them. */
  lemma JoinCanonical(dir: string, p: string)
    requires Canonical(dir) && Canonical(p)
    ensures PathJoin(dir, p) == dir + "/" + p
  {
    var joined := dir + "/" + p;
    assert joined == dir + ['/'] + p;
    SplitConcat(dir, '/', p);
    var parts := Split(joined, '/');
    assert AllPlain(parts) by {
      forall k | 0 <= k < |parts| ensures PlainName(parts[k]) {
        if k < |Split(dir, '/')| {
          assert parts[k] == Split(dir, '/')[k];
        } else {
          assert parts[k] == Split(p, '/')[k - |Split(dir, '/')|];
        }
      }
    }
    SplitLeading(dir, '/');
    assert joined[0] == dir[0];
    if p[|p| - 1] == '/' {
      SplitTrailing(p, '/');
      assert false;
    }
    assert joined[|joined| - 1] == p[|p| - 1];
    NormalizeAllPlain([], parts, true);
    assert [] + parts == parts;
    SplitJoin(joined, '/');
  }
}
