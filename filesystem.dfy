/** The filesystem backend: tree listings, file reads and commits against
    a directory of the local disk. The disk is a map from absolute paths
    to nodes; hashing and base64/UTF-8 conversion are parameters. */
module Filesystem {

  import opened Wrappers
  import opened Strings
  import opened Js
  import opened Common
  import opened Interface
  import opened Paths

  datatype Node = FileNode(bytes: Bytes) | DirNode

  type Entries = map<Segments, Node>

  /** The file system the backend reads and writes. */
  class Disk {
    var entries: Entries

    constructor ()
      ensures entries == map[[] := DirNode]
    {
      entries := map[[] := DirNode];
    }
  }

  /** A file system: the root is a directory, names are plain, and every
      entry sits in a directory. */
  predicate WellFormed(e: Entries)
  {
    && [] in e && e[[]].DirNode?
    && (forall p :: p in e ==> AllPlain(p))
    && (forall p {:trigger HasDirParent(e, p)} :: p in e && p != [] ==> HasDirParent(e, p))
  }

  /** The directory holding `p` is an entry and a directory. */
  predicate HasDirParent(e: Entries, p: Segments)
    requires p != []
  {
    p[..|p| - 1] in e && e[p[..|p| - 1]].DirNode?
  }

  /** `hasha(content)`, `content.toString("base64")`, and `Buffer.from(s, enc)`
      for "base64" and "utf8". */
  datatype Codecs = Codecs(
    hash: Bytes -> string,
    toBase64: Bytes -> string,
    fromBase64: string -> Bytes,
    fromUtf8: string -> Bytes)

  const ENOENT := "ENOENT"
  const ENOTDIR := "ENOTDIR"
  const EISDIR := "EISDIR"

  /** An error of the operating system, named by its code. */
  function FsError(code: string): Error
  {
    Thrown("Error", code)
  }

  /** Some proper ancestor of `p` is a file, so `p` cannot be reached. */
  predicate UnderFile(e: Entries, p: Segments)
  {
    exists k :: 0 <= k < |p| && p[..k] in e && e[p[..k]].FileNode?
  }

  predicate IsDir(e: Entries, p: Segments)
  {
    p in e && e[p].DirNode?
  }

  /** `fs.stat(p)`: the node, or why there is none. */
  function Stat(e: Entries, p: Segments): (r: Res<Node>)
    ensures r.Ok? <==> p in e
    ensures r.Err? ==> r.error == FsError(if UnderFile(e, p) then ENOTDIR else ENOENT)
  {
    if p in e then Ok(e[p])
    else if UnderFile(e, p) then Err(FsError(ENOTDIR))
    else Err(FsError(ENOENT))
  }

  // ---------------------------------------------------------------------
  // Reading.
  // ---------------------------------------------------------------------

  /** The body of a file read; metadata the filesystem cannot supply is
      constant ("" commit ids, ref "master"). */
  datatype FsFile = FsFile(
    blobId: string,
    commitId: string,
    content: string,
    contentSha256: string,
    encoding: string,
    fileName: string,
    filePath: string,
    lastCommitId: string,
    ref: string,
    size: nat)

  /** The file as the backend contract describes it. */
  function AsBackendFile(f: FsFile): BackendFile
  {
    BackendFile(f.blobId, f.content, f.encoding, f.filePath)
  }

  /** `readFile({file})`. */
  function ReadFileOf(e: Entries, cwd: Segments, c: Codecs, file: string): (r: Res<Reply<FsFile>>)
    // Not found when the path does not exist or is a directory.
    ensures r.Err? <==> !(AbsPath(cwd, file) in e && e[AbsPath(cwd, file)].FileNode?)
    ensures r.Err? ==> r.error == NotFound("")
    // Otherwise the whole content, base64-encoded, with its size and hash.
    ensures r.Ok? ==>
      var bytes := e[AbsPath(cwd, file)].bytes;
      && r.value.headers == map[]
      && r.value.body.content == c.toBase64(bytes) && r.value.body.encoding == "base64"
      && r.value.body.size == |bytes|
      && r.value.body.blobId == c.hash(bytes) && r.value.body.contentSha256 == c.hash(bytes)
      && r.value.body.filePath == file && r.value.body.fileName == Basename(file)
      && r.value.body.ref == "master"
  {
    var p := AbsPath(cwd, file);
    if p !in e then Err(NotFound(""))
    else match e[p]
      case DirNode => Err(NotFound(""))
      case FileNode(bytes) =>
        var hash := c.hash(bytes);
        Ok(Reply(map[], FsFile(hash, "", c.toBase64(bytes), hash, "base64", Basename(file), file, "", "master", |bytes|)))
  }

  // ---------------------------------------------------------------------
  // Listing.
  // ---------------------------------------------------------------------

  const DIR_ID := "a67a42c0ff0435776c2873d06ff6ec7cd8940be3"
  const DIR_MODE := "040000"
  const FILE_MODE := "100644"

  datatype TreeEntry = TreeEntry(id: string, mode: string, name: string, path: string, kind: string)

  /** `fileToTree(filePath)`: nothing when the path has vanished. */
  function FileToTree(e: Entries, cwd: Segments, c: Codecs, filePath: string): Option<TreeEntry>
  {
    var p := AbsPath(cwd, filePath);
    if p !in e then None
    else match e[p]
      case DirNode => Some(TreeEntry(DIR_ID, DIR_MODE, Basename(filePath), filePath, "tree"))
      case FileNode(bytes) => Some(TreeEntry(c.hash(bytes), FILE_MODE, Basename(filePath), filePath, "blob"))
  }

  predicate ChildOf(dir: Segments, q: Segments)
  {
    |q| == |dir| + 1 && q[..|dir|] == dir
  }

  /** The names `readdir` reports for a directory. */
  function Children(e: Entries, dir: Segments): set<string>
  {
    set q | q in e && ChildOf(dir, q) :: q[|dir|]
  }

  /** `names` lists every child of `dir` exactly once, in some order. */
  ghost predicate Listing(e: Entries, dir: Segments, names: seq<string>)
  {
    && (forall i, j :: 0 <= i < j < |names| ==> names[i] != names[j])
    && (forall n :: n in names <==> n in Children(e, dir))
  }

  /** One tree entry per listed name, in the listing's order. */
  predicate EntriesFor(e: Entries, cwd: Segments, c: Codecs, basePath: string,
                       names: seq<string>, body: seq<Option<TreeEntry>>)
  {
    |body| == |names| &&
    forall i :: 0 <= i < |names| ==> body[i] == FileToTree(e, cwd, c, PathJoin(basePath, names[i]))
  }

  /** One more listed name brings its own entry. */
  lemma EntriesForSnoc(e: Entries, cwd: Segments, c: Codecs, basePath: string,
                       names: seq<string>, body: seq<Option<TreeEntry>>, name: string)
    requires EntriesFor(e, cwd, c, basePath, names, body)
    ensures EntriesFor(e, cwd, c, basePath, names + [name], body + [FileToTree(e, cwd, c, PathJoin(basePath, name))])
  {
  }

  /** The guard of `tree` as written:
      `!(await fs.pathExists(p)) && !(await fs.stat(p)).isDirectory`.
      `isDirectory` is read, not called, so the second conjunct is `false`
      whenever it is reached, and reaching it means `stat` of a missing path.
      Ok(true) would mean "answer with an empty listing". */
  function TreeGuardAsWritten(e: Entries, p: Segments): (r: Res<bool>)
    ensures r != Ok(true)
    ensures p in e ==> r == Ok(false)
    ensures p !in e ==> r == Err(Stat(e, p).error)
  {
    if p in e then Ok(false) else Err(Stat(e, p).error)
  }

  /** What `tree` as written answers for a path that is not a directory:
      the guard's error for a missing path, `readdir`'s for a file. */
  function TreeOfNonDirAsWritten(e: Entries, p: Segments): (r: Res<Reply<seq<Option<TreeEntry>>>>)
    requires !IsDir(e, p)
    ensures r.Err?
  {
    match TreeGuardAsWritten(e, p)
    case Err(err) => Err(err)
    case Ok(_) => Err(FsError(ENOTDIR))
  }

  /** A listing of a directory that does not exist fails instead of being empty. */
  lemma TreeOfMissingDirFails()
    ensures TreeOfNonDirAsWritten(map[[] := DirNode], ["missing"]) == Err(FsError(ENOENT))
  {
    var e: Entries := map[[] := DirNode];
    assert !UnderFile(e, ["missing"]) by {
      forall k | 0 <= k < 1 ensures !(["missing"][..k] in e && e[["missing"][..k]].FileNode?) {
        assert ["missing"][..k] == [];
      }
    }
  }

  /** The guard as intended, `!exists || !stat.isDirectory()`: true (answer
      with an empty listing) exactly for paths that are not directories. */
  function TreeGuard(e: Entries, p: Segments): (r: bool)
    ensures r <==> !IsDir(e, p)
  {
    !(p in e) || !e[p].DirNode?
  }

  // ---------------------------------------------------------------------
  // Writing.
  // ---------------------------------------------------------------------

  /** Why `fs.writeFile(p, ...)` fails, if it does. */
  function WriteError(e: Entries, p: Segments): Option<Error>
  {
    if UnderFile(e, p) then Some(FsError(ENOTDIR))
    else if p == [] then Some(FsError(EISDIR))
    else if p[..|p| - 1] !in e then Some(FsError(ENOENT))
    else if IsDir(e, p) then Some(FsError(EISDIR))
    else None
  }

  /** Why `fs.unlink(p)` fails, if it does. */
  function UnlinkError(e: Entries, p: Segments): Option<Error>
  {
    if UnderFile(e, p) then Some(FsError(ENOTDIR))
    else if p !in e then Some(FsError(ENOENT))
    else if e[p].DirNode? then Some(FsError(EISDIR))
    else None
  }

  /** The bytes a create or update writes: base64-decoded when so declared,
      UTF-8 otherwise. */
  function ContentBytes(c: Codecs, a: CommitAction): Bytes
    requires a.content.Some?
  {
    if a.encoding == Some("base64") then c.fromBase64(a.content.value) else c.fromUtf8(a.content.value)
  }

  /** The outcome of one action and the file system after it. */
  datatype Applied = Applied(result: Res<()>, entries: Entries)

  /** `doCommitAction(action)`. */
  function ApplyAction(e: Entries, cwd: Segments, c: Codecs, a: CommitAction): Applied
  {
    var p := AbsPath(cwd, a.filePath);
    match a.action
    case Create => Write(e, p, c, a)
    case Update => Write(e, p, c, a)
    case Delete =>
      var err := UnlinkError(e, p);
      if err.Some? then Applied(Err(err.value), e) else Applied(Ok(()), e - {p})
    case Move => Applied(Ok(()), e)
  }

  /** Node's `TypeError` for a write without data. */
  function NoData(): (err: Error)
    ensures err.Thrown? && err.name == "TypeError"
  {
    TypeError("The \"data\" argument must be of type string or an instance of Buffer")
  }

  function Write(e: Entries, p: Segments, c: Codecs, a: CommitAction): Applied
  {
    if a.content.None? then Applied(Err(NoData()), e)
    else
      var err := WriteError(e, p);
      if err.Some? then Applied(Err(err.value), e) else Applied(Ok(()), e[p := FileNode(ContentBytes(c, a))])
  }

  /** What one action does to the file system. */
  lemma ApplyActionEffect(e: Entries, cwd: Segments, c: Codecs, a: CommitAction)
    // A failed action changes nothing.
    ensures ApplyAction(e, cwd, c, a).result.Err? ==> ApplyAction(e, cwd, c, a).entries == e
    // Moves are accepted and do nothing.
    ensures a.action.Move? ==> ApplyAction(e, cwd, c, a) == Applied(Ok(()), e)
    // Creating or updating without content is a type error.
    ensures (a.action.Create? || a.action.Update?) && a.content.None? ==>
      ApplyAction(e, cwd, c, a).result.Err? && ApplyAction(e, cwd, c, a).result.error.Thrown? && ApplyAction(e, cwd, c, a).result.error.name == "TypeError"
    // A successful write stores exactly the decoded content at the path.
    ensures (a.action.Create? || a.action.Update?) && ApplyAction(e, cwd, c, a).result.Ok? ==>
      a.content.Some? && ApplyAction(e, cwd, c, a).entries == e[AbsPath(cwd, a.filePath) := FileNode(ContentBytes(c, a))]
    // A successful delete removes exactly a file.
    ensures a.action.Delete? && ApplyAction(e, cwd, c, a).result.Ok? ==>
      AbsPath(cwd, a.filePath) in e && e[AbsPath(cwd, a.filePath)].FileNode? &&
      ApplyAction(e, cwd, c, a).entries == e - {AbsPath(cwd, a.filePath)}
  {
    var p := AbsPath(cwd, a.filePath);
    match a.action
    case Create => WriteEffect(e, p, c, a);
    case Update => WriteEffect(e, p, c, a);
    case Delete =>
    case Move =>
  }

  /** A write without content is a type error, any failure changes nothing,
      and a success stores the content at the path. */
  lemma WriteEffect(e: Entries, p: Segments, c: Codecs, a: CommitAction)
    ensures Write(e, p, c, a).result.Err? ==> Write(e, p, c, a).entries == e
    ensures a.content.None? ==>
      Write(e, p, c, a).result.Err? && Write(e, p, c, a).result.error.Thrown? && Write(e, p, c, a).result.error.name == "TypeError"
    ensures Write(e, p, c, a).result.Ok? ==> a.content.Some? && Write(e, p, c, a).entries == e[p := FileNode(ContentBytes(c, a))]
  {
  }

  /** A sequence of steps, each applied to the state the previous one
      left; the result is the first failure, and each step after a failure
      is still attempted. */
  function Sequenced(step: (Entries, CommitAction) -> Applied, e: Entries, actions: seq<CommitAction>): Applied
    decreases |actions|
  {
    if actions == [] then Applied(Ok(()), e)
    else
      var before := Sequenced(step, e, actions[..|actions| - 1]);
      var last := step(before.entries, actions[|actions| - 1]);
      Applied(if before.result.Err? then before.result else last.result, last.entries)
  }

  /** `Promise.all(actions.map(doCommitAction))`, with the actions taking
      effect in index order. */
  function ApplyAll(e: Entries, cwd: Segments, c: Codecs, actions: seq<CommitAction>): Applied
  {
    Sequenced((x, a) => ApplyAction(x, cwd, c, a), e, actions)
  }

  /** One more action: its entries follow the previous ones, and the first
      failure is kept. */
  lemma ApplyAllStep(e: Entries, cwd: Segments, c: Codecs, actions: seq<CommitAction>, i: nat)
    requires i < |actions|
    ensures var before := ApplyAll(e, cwd, c, actions[..i]);
      var last := ApplyAction(before.entries, cwd, c, actions[i]);
      ApplyAll(e, cwd, c, actions[..i + 1])
        == Applied(if before.result.Err? then before.result else last.result, last.entries)
  {
    var pre := actions[..i + 1];
    assert pre[..|pre| - 1] == actions[..i];
    assert pre[|pre| - 1] == actions[i];
    SequencedStep((x, a) => ApplyAction(x, cwd, c, a), e, pre);
  }

  /** The last step of a sequence applies to the state the others left. */
  lemma SequencedStep(step: (Entries, CommitAction) -> Applied, e: Entries, actions: seq<CommitAction>)
    requires actions != []
    ensures var before := Sequenced(step, e, actions[..|actions| - 1]);
      var last := step(before.entries, actions[|actions| - 1]);
      Sequenced(step, e, actions) == Applied(if before.result.Err? then before.result else last.result, last.entries)
  {
  }

  /** `commit`'s reply: `{ok: true}` with no headers once every action succeeded. */
  function CommitReply(result: Res<()>): Res<Reply<JsValue>>
  {
    match result
    case Err(err) => Err(err)
    case Ok(_) => Ok(Reply(map[], Obj(map["ok" := Bool(true)])))
  }

  /** The file system stays well formed after any action. */
  lemma ApplyActionWellFormed(e: Entries, cwd: Segments, c: Codecs, a: CommitAction)
    requires WellFormed(e) && AllPlain(cwd)
    ensures WellFormed(ApplyAction(e, cwd, c, a).entries)
  {
    var p := AbsPath(cwd, a.filePath);
    match a.action
    case Create =>
      AbsPathPlain(cwd, a.filePath);
      WriteWellFormed(e, p, c, a);
    case Update =>
      AbsPathPlain(cwd, a.filePath);
      WriteWellFormed(e, p, c, a);
    case Delete =>
      if UnlinkError(e, p).None? {
        UnlinkWellFormed(e, p);
      }
    case Move =>
  }

  /** A write that succeeds puts a file under an existing directory. */
  lemma WriteWellFormed(e: Entries, p: Segments, c: Codecs, a: CommitAction)
    requires WellFormed(e) && AllPlain(p)
    ensures WellFormed(Write(e, p, c, a).entries)
  {
    if a.content.None? {
      assert Write(e, p, c, a) == Applied(Err(NoData()), e);
    } else if WriteError(e, p).Some? {
      assert Write(e, p, c, a) == Applied(Err(WriteError(e, p).value), e);
    } else {
      assert Write(e, p, c, a).entries == e[p := FileNode(ContentBytes(c, a))];
      WritableParent(e, p);
      PutFileWellFormed(e, p, FileNode(ContentBytes(c, a)));
    }
  }

  /** A path a write accepts is not a directory and sits in one. */
  lemma WritableParent(e: Entries, p: Segments)
    requires WriteError(e, p).None?
    ensures p != [] && IsDir(e, p[..|p| - 1]) && !IsDir(e, p)
  {
    assert !(p[..|p| - 1] in e && e[p[..|p| - 1]].FileNode?);
  }

  /** A file put at a plain path whose parent is a directory and which is
      not itself a directory keeps the file system well formed. */
  lemma PutFileWellFormed(e: Entries, p: Segments, n: Node)
    requires WellFormed(e) && AllPlain(p) && n.FileNode?
    requires p != [] && IsDir(e, p[..|p| - 1]) && !IsDir(e, p)
    ensures WellFormed(e[p := n])
  {
    var e' := e[p := n];
    assert [] in e' && e'[[]].DirNode?;
    assert forall q :: q in e' ==> AllPlain(q);
    forall q | q in e' && q != [] ensures HasDirParent(e', q) {
      if q != p {
        assert q in e && HasDirParent(e, q);
      }
    }
  }

  /** Unlinking a file leaves every other node's directory in place. */
  lemma UnlinkWellFormed(e: Entries, p: Segments)
    requires WellFormed(e) && UnlinkError(e, p).None?
    ensures WellFormed(e - {p})
  {
    var e' := e - {p};
    forall q | q in e' && q != [] ensures HasDirParent(e', q) {
      assert q in e && HasDirParent(e, q);
    }
  }

  /** Writing and then reading a path gives back the written bytes, and
      every other path keeps its node. */
  lemma WriteThenRead(e: Entries, cwd: Segments, c: Codecs, a: CommitAction)
    requires a.action.Create? || a.action.Update?
    requires ApplyAction(e, cwd, c, a).result.Ok?
    ensures a.content.Some?
    ensures var e' := ApplyAction(e, cwd, c, a).entries;
      var read := ReadFileOf(e', cwd, c, a.filePath);
      && read.Ok?
      && read.value.body.content == c.toBase64(ContentBytes(c, a))
      && read.value.body.size == |ContentBytes(c, a)|
      && (forall q :: q != AbsPath(cwd, a.filePath) ==> (q in e' <==> q in e) && (q in e ==> e'[q] == e[q]))
  {
  }

  /** Deleting and then reading a path is not found. */
  lemma DeleteThenRead(e: Entries, cwd: Segments, c: Codecs, a: CommitAction)
    requires a.action.Delete?
    requires ApplyAction(e, cwd, c, a).result.Ok?
    ensures ReadFileOf(ApplyAction(e, cwd, c, a).entries, cwd, c, a.filePath) == Err(NotFound(""))
  {
  }

  /** The step at index `i` succeeded when its turn came. */
  predicate Succeeded(step: (Entries, CommitAction) -> Applied, e: Entries, actions: seq<CommitAction>, i: nat)
    requires i < |actions|
  {
    step(Sequenced(step, e, actions[..i]).entries, actions[i]).result.Ok?
  }

  /** Whether a step succeeded does not depend on the steps after it. */
  lemma SucceededInPrefix(step: (Entries, CommitAction) -> Applied, e: Entries, actions: seq<CommitAction>, n: nat, i: nat)
    requires i < n <= |actions|
    ensures Succeeded(step, e, actions, i) == Succeeded(step, e, actions[..n], i)
  {
    assert actions[..n][..i] == actions[..i];
    assert actions[..n][i] == actions[i];
  }

  /** No partial success is reported: a commit succeeds iff each of its
      actions did. */
  lemma {:induction false} SequencedSucceeds(step: (Entries, CommitAction) -> Applied, e: Entries, actions: seq<CommitAction>)
    ensures Sequenced(step, e, actions).result.Ok? <==>
      forall i :: 0 <= i < |actions| ==> Succeeded(step, e, actions, i)
    decreases |actions|
  {
    if actions != [] {
      var n := |actions| - 1;
      var before := Sequenced(step, e, actions[..n]);
      SequencedSucceeds(step, e, actions[..n]);
      forall i | 0 <= i < n
        ensures Succeeded(step, e, actions, i) == Succeeded(step, e, actions[..n], i)
      {
        SucceededInPrefix(step, e, actions, n, i);
      }
      assert Succeeded(step, e, actions, n) == step(before.entries, actions[n]).result.Ok?;
      assert Sequenced(step, e, actions).result.Ok? ==
        (before.result.Ok? && step(before.entries, actions[n]).result.Ok?);
    }
  }

  /** Action `i` is the first that failed, and its error is the result. */
  predicate FirstFailureAt(step: (Entries, CommitAction) -> Applied, e: Entries, actions: seq<CommitAction>, i: nat)
  {
    && i < |actions| && !Succeeded(step, e, actions, i)
    && (forall j :: 0 <= j < i ==> Succeeded(step, e, actions, j))
    && Sequenced(step, e, actions).result == step(Sequenced(step, e, actions[..i]).entries, actions[i]).result
  }

  /** A failed commit reports the error of its first failing action. */
  lemma {:induction false} SequencedFirstFailure(step: (Entries, CommitAction) -> Applied, e: Entries, actions: seq<CommitAction>)
    requires Sequenced(step, e, actions).result.Err?
    ensures exists i :: FirstFailureAt(step, e, actions, i)
    decreases |actions|
  {
    var n := |actions| - 1;
    var init := actions[..n];
    if Sequenced(step, e, init).result.Err? {
      SequencedFirstFailure(step, e, init);
      var i :| FirstFailureAt(step, e, init, i);
      FirstFailureExtends(step, e, actions, i);
    } else {
      LastFailure(step, e, actions);
    }
  }

  /** The first failure among all but the last action stays the first. */
  lemma FirstFailureExtends(step: (Entries, CommitAction) -> Applied, e: Entries, actions: seq<CommitAction>, i: nat)
    requires actions != []
    requires FirstFailureAt(step, e, actions[..|actions| - 1], i)
    ensures FirstFailureAt(step, e, actions, i)
  {
    var n := |actions| - 1;
    var init := actions[..n];
    SucceededInPrefix(step, e, actions, n, i);
    forall j | 0 <= j < i ensures Succeeded(step, e, actions, j) {
      SucceededInPrefix(step, e, actions, n, j);
    }
    assert init[..i] == actions[..i] && init[i] == actions[i];
  }

  /** When all but the last action succeeded, the last one is the first failure. */
  lemma LastFailure(step: (Entries, CommitAction) -> Applied, e: Entries, actions: seq<CommitAction>)
    requires actions != []
    requires Sequenced(step, e, actions).result.Err?
    requires Sequenced(step, e, actions[..|actions| - 1]).result.Ok?
    ensures FirstFailureAt(step, e, actions, |actions| - 1)
  {
    var n := |actions| - 1;
    SequencedSucceeds(step, e, actions[..n]);
    forall j | 0 <= j < n ensures Succeeded(step, e, actions, j) {
      SucceededInPrefix(step, e, actions, n, j);
    }
  }

  /** Every action is applied to the state the previous ones left, so the
      file system stays well formed through a whole commit. */
  lemma {:induction false} ApplyAllWellFormed(e: Entries, cwd: Segments, c: Codecs, actions: seq<CommitAction>)
    requires WellFormed(e) && AllPlain(cwd)
    ensures WellFormed(ApplyAll(e, cwd, c, actions).entries)
    decreases |actions|
  {
    if actions != [] {
      var before := ApplyAll(e, cwd, c, actions[..|actions| - 1]);
      ApplyAllWellFormed(e, cwd, c, actions[..|actions| - 1]);
      ApplyActionWellFormed(before.entries, cwd, c, actions[|actions| - 1]);
      assert ApplyAll(e, cwd, c, actions).entries == ApplyAction(before.entries, cwd, c, actions[|actions| - 1]).entries;
    }
  }

  // ---------------------------------------------------------------------
  // The backend object.
  // ---------------------------------------------------------------------

  /** `BackendFilesystem`: the working directory is fixed at construction;
      every operation goes to the disk. */
  class BackendFilesystem {
    const cwd: Segments
    const disk: Disk
    const codecs: Codecs

    predicate Valid()
      reads disk
    {
      AllPlain(cwd) && WellFormed(disk.entries)
    }

    constructor (cwd: Segments, disk: Disk, codecs: Codecs)
      requires AllPlain(cwd)
      ensures this.cwd == cwd && this.disk == disk && this.codecs == codecs
      ensures WellFormed(disk.entries) ==> Valid()
    {
      this.cwd := cwd;
      this.disk := disk;
      this.codecs := codecs;
    }

    /** `readFile({file})`: existence, then the kind, then the content. */
    method ReadFile(file: string) returns (r: Res<Reply<FsFile>>)
      ensures r == ReadFileOf(disk.entries, cwd, codecs, file)
    {
      var p := AbsPath(cwd, file);
      if p !in disk.entries {
        return Err(NotFound(""));
      }
      var node := disk.entries[p];
      if node.DirNode? {
        return Err(NotFound(""));
      }
      var hash := codecs.hash(node.bytes);
      var body := FsFile(hash, "", codecs.toBase64(node.bytes), hash, "base64", Basename(file), file, "", "master", |node.bytes|);
      return Ok(Reply(map[], body));
    }

    /** `tree({path})` with the guard as intended: an empty listing for a
        path that is not a directory, otherwise one entry per child in the
        order `readdir` reports them (which is unspecified). */
    method Tree(basePath: string) returns (r: Res<Reply<seq<Option<TreeEntry>>>>)
      ensures !IsDir(disk.entries, AbsPath(cwd, basePath)) ==> r == Ok(Reply(map[], []))
      ensures IsDir(disk.entries, AbsPath(cwd, basePath)) ==>
        r.Ok? && r.value.headers == map[] &&
        exists names :: Listing(disk.entries, AbsPath(cwd, basePath), names) &&
          EntriesFor(disk.entries, cwd, codecs, basePath, names, r.value.body)
    {
      var dir := AbsPath(cwd, basePath);
      if TreeGuard(disk.entries, dir) {
        return Ok(Reply(map[], []));
      }
      var children := Children(disk.entries, dir);
      var remaining := children;
      var names: seq<string> := [];
      var body: seq<Option<TreeEntry>> := [];
      while remaining != {}
        invariant forall i, j :: 0 <= i < j < |names| ==> names[i] != names[j]
        invariant forall n :: n in names ==> n in children && n !in remaining
        invariant forall n :: n in children ==> n in names || n in remaining
        invariant remaining <= children
        invariant EntriesFor(disk.entries, cwd, codecs, basePath, names, body)
        decreases |remaining|
      {
        var name :| name in remaining;
        EntriesForSnoc(disk.entries, cwd, codecs, basePath, names, body, name);
        names := names + [name];
        body := body + [FileToTree(disk.entries, cwd, codecs, PathJoin(basePath, name))];
        remaining := remaining - {name};
      }
      assert Listing(disk.entries, dir, names);
      return Ok(Reply(map[], body));
    }

    /** `doCommitAction(action)`. */
    method DoCommitAction(a: CommitAction) returns (result: Res<()>)
      modifies disk
      ensures Applied(result, disk.entries) == ApplyAction(old(disk.entries), cwd, codecs, a)
    {
      var p := AbsPath(cwd, a.filePath);
      match a.action
      case Create =>
        result := WriteFile(p, a);
      case Update =>
        result := WriteFile(p, a);
      case Delete =>
        var err := UnlinkError(disk.entries, p);
        if err.Some? {
          return Err(err.value);
        }
        disk.entries := disk.entries - {p};
        return Ok(());
      case Move =>
        return Ok(());
    }

    /** `fs.writeFile(p, data)` for a create or an update. */
    method WriteFile(p: Segments, a: CommitAction) returns (result: Res<()>)
      modifies disk
      ensures Applied(result, disk.entries) == Write(old(disk.entries), p, codecs, a)
    {
      if a.content.None? {
        return Err(NoData());
      }
      var err := WriteError(disk.entries, p);
      if err.Some? {
        return Err(err.value);
      }
      disk.entries := disk.entries[p := FileNode(ContentBytes(codecs, a))];
      return Ok(());
    }

    /** `commit({commitBody})`: every action in order; the reply is
        `{ok: true}` or the first failure. */
    method Commit(body: CommitBody) returns (r: Res<Reply<JsValue>>)
      requires Valid()
      modifies disk
      ensures Valid()
      ensures disk.entries == ApplyAll(old(disk.entries), cwd, codecs, body.actions).entries
      ensures r == CommitReply(ApplyAll(old(disk.entries), cwd, codecs, body.actions).result)
    {
      var actions := body.actions;
      var first: Res<()> := Ok(());
      var i := 0;
      while i < |actions|
        invariant 0 <= i <= |actions|
        invariant Applied(first, disk.entries) == ApplyAll(old(disk.entries), cwd, codecs, actions[..i])
      {
        ApplyAllStep(old(disk.entries), cwd, codecs, actions, i);
        var result := DoCommitAction(actions[i]);
        if first.Ok? {
          first := result;
        }
        i := i + 1;
      }
      assert actions[..|actions|] == actions;
      ApplyAllWellFormed(old(disk.entries), cwd, codecs, actions);
      return CommitReply(first);
    }
  }

  /** An entry for a path that resolves to an existing node. */
  lemma FileToTreeAt(e: Entries, cwd: Segments, c: Codecs, path: string, q: Segments, name: string)
    requires AbsPath(cwd, path) == q && q in e && Basename(path) == name
    ensures FileToTree(e, cwd, c, path) ==
      Some(if e[q].DirNode? then TreeEntry(DIR_ID, DIR_MODE, name, path, "tree")
           else TreeEntry(c.hash(e[q].bytes), FILE_MODE, name, path, "blob"))
  {
  }

  /** For a canonical directory, each listed child appears with its own
      name, its joined path and its kind. */
  lemma ListedChild(e: Entries, cwd: Segments, c: Codecs, basePath: string, name: string)
    requires WellFormed(e)
    requires basePath == "" || Canonical(basePath)
    requires name in Children(e, AbsPath(cwd, basePath))
    ensures AbsPath(cwd, basePath) + [name] in e
    ensures PathJoin(basePath, name) == if basePath == "" then name else basePath + "/" + name
    ensures var p := AbsPath(cwd, basePath) + [name];
      FileToTree(e, cwd, c, PathJoin(basePath, name)) ==
        Some(if e[p].DirNode? then TreeEntry(DIR_ID, DIR_MODE, name, PathJoin(basePath, name), "tree")
             else TreeEntry(c.hash(e[p].bytes), FILE_MODE, name, PathJoin(basePath, name), "blob"))
  {
    var dir := AbsPath(cwd, basePath);
    ChildEntry(e, dir, name);
    JoinEntry(cwd, basePath, name);
    FileToTreeAt(e, cwd, c, PathJoin(basePath, name), dir + [name], name);
  }

  /** A name `readdir` reports is a plain name, and the child is an entry. */
  lemma ChildEntry(e: Entries, dir: Segments, name: string)
    requires WellFormed(e)
    requires name in Children(e, dir)
    ensures dir + [name] in e && PlainName(name)
  {
    var q :| q in e && ChildOf(dir, q) && q[|dir|] == name;
    assert q == q[..|dir|] + [q[|dir|]];
    assert AllPlain(q);
  }
}
