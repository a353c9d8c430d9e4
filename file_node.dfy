/**
 * The file node (src/nodes/File.ts): reads one file, or every regular file
 * of a directory joined into one text, or writes a file after creating its
 * parent directories. The file system is a map from paths to entries held
 * by a `FileSystem` object that writes update in place; every error ends
 * the process, which the model reports as a `Terminated` outcome.
 */
module Files {
  import opened Wrappers
  import opened Strings
  import opened Sorting

  /**
   * What `fs.stat` finds at a path. A directory carries the names
   * `fs.readdir` lists, in the order the system gives them; a regular file
   * carries what `fs.readFile` returns or the message it fails with; any
   * other kind of entry (a socket, a device) carries the message reading it
   * fails with.
   */
  datatype Entry =
    | Directory(names: seq<string>)
    | RegularFile(content: Result<string>)
    | Special(readError: string)

  type Tree = map<string, Entry>

  /** The file system the node reads and writes. */
  class FileSystem {
    var entries: Tree

    constructor (entries: Tree)
      ensures this.entries == entries
    {
      this.entries := entries;
    }
  }

  /** A file node as constructed. */
  datatype FileNode = FileNode(mode: string, path: string, content: Option<string>)

  /** The call-time overrides of `execute`. */
  datatype RunParams = RunParams(mode: Option<string>, path: Option<string>, content: Option<string>)

  /** The end of `execute`: the text read, `true` after a write, or the message of the error that ended the process. */
  datatype Outcome = Text(text: string) | Wrote | Terminated(message: string)

  const ContentRequired := "Content is required for write mode"
  const Separator := "\n\n"

  /** A string option as JavaScript tests it: present and non-empty. */
  predicate Given(s: Option<string>)
  {
    s.Some? && s.value != ""
  }

  /** `call || own` for a required string. */
  function Pick(call: Option<string>, own: string): (r: string)
    ensures Given(call) ==> r == call.value
    ensures !Given(call) ==> r == own
  {
    if Given(call) then call.value else own
  }

  /** `call || own` for an optional string. */
  function PickOpt(call: Option<string>, own: Option<string>): (r: Option<string>)
    ensures Given(call) ==> r == call
    ensures !Given(call) ==> r == own
  {
    if Given(call) then call else own
  }

  /** The node with the truthy call-time values put in place of its own. */
  function Effective(node: FileNode, params: RunParams): (r: FileNode)
    ensures r.mode == (if Given(params.mode) then params.mode.value else node.mode)
    ensures r.path == (if Given(params.path) then params.path.value else node.path)
    ensures r.content == (if Given(params.content) then params.content else node.content)
  {
    FileNode(Pick(params.mode, node.mode), Pick(params.path, node.path), PickOpt(params.content, node.content))
  }

  /** `path.join(dir, name)` for a plain name. */
  function JoinPath(dir: string, name: string): (r: string)
    ensures StartsWith(r, dir) && EndsWith(r, name)
  {
    var r := if dir == "" then name else if dir[|dir| - 1] == '/' then dir + name else dir + "/" + name;
    assert r[..|dir|] == dir;
    assert r[|r| - |name|..] == name;
    r
  }

  /** The header and content of one file in the text read. */
  function Block(path: string, content: string): (r: string)
    ensures StartsWith(r, "# ")
  {
    "# " + path + "\n" + content
  }

  function StatError(path: string): string
  {
    "ENOENT: no such file or directory, stat '" + path + "'"
  }

  function ReadFailed(path: string, message: string): string
  {
    "Failed to read from " + path + ": " + message
  }

  function WriteFailed(path: string, message: string): string
  {
    "Failed to write to " + path + ": " + message
  }

  function NotADirectory(path: string): string
  {
    "ENOTDIR: not a directory, mkdir '" + path + "'"
  }

  function AlreadyExists(path: string): string
  {
    "EEXIST: file already exists, mkdir '" + path + "'"
  }

  function IsADirectory(path: string): string
  {
    "EISDIR: illegal operation on a directory, open '" + path + "'"
  }

  // ---------------------------------------------------------------- reading

  /** Every name from the `i`-th on is an entry of the directory. */
  predicate Present(fs: Tree, dir: string, names: seq<string>, i: nat)
  {
    forall k | i <= k < |names| :: JoinPath(dir, names[k]) in fs
  }

  lemma PresentStep(fs: Tree, dir: string, names: seq<string>, i: nat)
    requires i < |names|
    ensures Present(fs, dir, names, i) <==> JoinPath(dir, names[i]) in fs && Present(fs, dir, names, i + 1)
  {
  }

  /**
   * The directory loop from the `i`-th sorted name on, with `joined` the
   * text so far: a missing entry makes `fs.stat` fail, a readable regular
   * file adds its block after a blank line when the text is non-empty, and
   * every other entry is passed over.
   */
  function Collect(fs: Tree, dir: string, names: seq<string>, i: nat, joined: string): (r: Result<string>)
    requires i <= |names|
    ensures r.Ok? <==> Present(fs, dir, names, i)
    decreases |names| - i
  {
    if i == |names| then Ok(joined)
    else
      var full := JoinPath(dir, names[i]);
      PresentStep(fs, dir, names, i);
      if full !in fs then Err(StatError(full))
      else if fs[full].RegularFile? && fs[full].content.Ok? then
        var block := Block(full, fs[full].content.value);
        Collect(fs, dir, names, i + 1, if joined != "" then joined + Separator + block else block)
      else Collect(fs, dir, names, i + 1, joined)
  }

  /** The blocks one entry contributes: its own for a readable regular file, none otherwise. */
  function Contribution(e: Entry, full: string): (r: seq<string>)
    ensures |r| <= 1
  {
    if e.RegularFile? && e.content.Ok? then [Block(full, e.content.value)] else []
  }

  /**
   * The reference reading of a directory: the blocks of the readable regular
   * files among `names`, in the order of `names`, or the failure of the
   * first name that is missing.
   */
  function Listing(fs: Tree, dir: string, names: seq<string>): (r: Result<seq<string>>)
    ensures r.Ok? ==> forall k | 0 <= k < |r.value| :: StartsWith(r.value[k], "# ")
    ensures r.Ok? <==> forall n | n in names :: JoinPath(dir, n) in fs
  {
    if names == [] then Ok([])
    else
      var full := JoinPath(dir, names[0]);
      if full !in fs then Err(StatError(full))
      else
        match Listing(fs, dir, names[1..])
        case Err(m) => Err(m)
        case Ok(rest) => Ok(Contribution(fs[full], full) + rest)
  }

  /** `fs.readFile` on a path that exists and is not a directory. */
  function ReadOne(path: string, e: Entry): (r: Result<string>)
    requires !e.Directory?
  {
    match e
    case RegularFile(Ok(c)) => Ok(Block(path, c))
    case RegularFile(Err(m)) => Err(ReadFailed(path, ReadFailed(path, m)))
    case Special(m) => Err(ReadFailed(path, ReadFailed(path, m)))
  }

  /**
   * `readFile`: a directory is read name by name in sorted order; anything
   * else is read as one file. A failure is wrapped in "Failed to read from",
   * twice for a file whose own read fails, since the inner handler's error
   * passes through the outer one.
   */
  function Read(fs: Tree, path: string): (r: Result<string>)
    ensures r.Ok? ==> path in fs
    ensures path in fs && fs[path].RegularFile? && fs[path].content.Ok? ==> r == Ok(Block(path, fs[path].content.value))
    ensures r.Err? ==> StartsWith(r.error, "Failed to read from " + path + ": ")
  {
    if path !in fs then Err(ReadFailed(path, StatError(path)))
    else if fs[path].Directory? then
      match Collect(fs, path, Sort(fs[path].names), 0, "")
      case Ok(t) => Ok(t)
      case Err(m) => Err(ReadFailed(path, m))
    else ReadOne(path, fs[path])
  }

  /** `readFile`, with the directory loop of the source. */
  method ReadPath(fs: Tree, path: string) returns (r: Result<string>)
    ensures r == Read(fs, path)
  {
    if path !in fs {
      return Err(ReadFailed(path, StatError(path)));
    }
    if !fs[path].Directory? {
      return ReadOne(path, fs[path]);
    }
    var sorted := Sort(fs[path].names);
    var joined := "";
    for i := 0 to |sorted|
      invariant Collect(fs, path, sorted, i, joined) == Collect(fs, path, sorted, 0, "")
    {
      var full := JoinPath(path, sorted[i]);
      if full !in fs {
        return Err(ReadFailed(path, StatError(full)));
      }
      var e := fs[full];
      if e.RegularFile? && e.content.Ok? {
        ghost var next := if joined != "" then joined + Separator + Block(full, e.content.value) else Block(full, e.content.value);
        assert Collect(fs, path, sorted, i, joined) == Collect(fs, path, sorted, i + 1, next);
        if joined != "" {
          joined := joined + Separator;
        }
        joined := joined + Block(full, e.content.value);
        assert joined == next;
      } else {
        assert Collect(fs, path, sorted, i, joined) == Collect(fs, path, sorted, i + 1, joined);
      }
    }
    return Ok(joined);
  }

  // ---------------------------------------------------------------- writing

  /** The index of the last '/' in `p`, if any. */
  function LastSlash(p: string): (r: Option<nat>)
    ensures r.Some? ==> r.value < |p| && p[r.value] == '/' && '/' !in p[r.value + 1..]
    ensures r.None? ==> '/' !in p
  {
    if p == [] then None
    else if p[|p| - 1] == '/' then Some(|p| - 1)
    else
      var r := LastSlash(p[..|p| - 1]);
      assert p == p[..|p| - 1] + [p[|p| - 1]];
      if r.Some? then
        assert p[r.value + 1..] == p[..|p| - 1][r.value + 1..] + [p[|p| - 1]];
        r
      else r
  }

  /** `path.dirname(p)`: the text before the last '/', "/" for a top-level path, "." without a '/'. */
  function Dirname(p: string): (r: string)
    ensures r == "." || r == "/" || |r| < |p|
  {
    match LastSlash(p)
    case None => "."
    case Some(i) => if i == 0 then "/" else p[..i]
  }

  /** `path.basename(p)`: the text after the last '/'. */
  function Basename(p: string): string
  {
    match LastSlash(p)
    case None => p
    case Some(i) => p[i + 1..]
  }

  /** The directories every path starts from, which always exist. */
  predicate IsRoot(d: string)
  {
    d == "." || d == "/"
  }

  /** A directory entry does not change kind, and nothing else changes, from `fs` to `fs'`. */
  predicate Extends(fs: Tree, fs': Tree)
  {
    fs.Keys <= fs'.Keys
    && (forall p | p in fs :: fs[p].Directory? ==> fs'[p].Directory?)
    && (forall p | p in fs :: !fs[p].Directory? ==> fs'[p] == fs[p])
  }

  /** Puts `e` at `p` and adds `p`'s name to its parent's listing when it is not there yet. */
  function Link(fs: Tree, p: string, e: Entry): (r: Tree)
    requires !IsRoot(p)
    ensures p in r && r[p] == e
    ensures r.Keys == fs.Keys + {p}
    ensures forall q | q in fs && q != p && q != Dirname(p) :: r[q] == fs[q]
    ensures Dirname(p) != p && Dirname(p) in fs && fs[Dirname(p)].Directory? ==>
      r[Dirname(p)].Directory? && Basename(p) in r[Dirname(p)].names
    ensures Dirname(p) != p && Dirname(p) in fs && !fs[Dirname(p)].Directory? ==>
      r[Dirname(p)] == fs[Dirname(p)]
  {
    var fs1 := fs[p := e];
    var parent := Dirname(p);
    assert parent != p;
    if parent in fs1 && fs1[parent].Directory? && Basename(p) !in fs1[parent].names then
      fs1[parent := Directory(fs1[parent].names + [Basename(p)])]
    else fs1
  }

  /** `d` and the directories above it, nearest first, up to the root. */
  function Up(d: string): (r: seq<string>)
    ensures IsRoot(d) <==> r == []
    ensures forall k | 0 <= k < |r| :: !IsRoot(r[k])
    decreases |d|
  {
    if IsRoot(d) then []
    else
      var parent := Dirname(d);
      [d] + (if IsRoot(parent) then [] else Up(parent))
  }

  /** Every entry's parent is a directory, as in any file system the node can meet. */
  predicate Rooted(fs: Tree)
  {
    forall p | p in fs && !IsRoot(Dirname(p)) :: Dirname(p) in fs && fs[Dirname(p)].Directory?
  }

  /** One of `d` and the directories above it is an entry that is not a directory. */
  predicate Blocked(fs: Tree, d: string)
  {
    exists a | a in Up(d) :: a in fs && !fs[a].Directory?
  }

  /**
   * The directories above an `mkdir` target: creates `d` and each missing
   * one above it, or finds nothing when the nearest one that exists is not a
   * directory.
   */
  function MakeMissing(fs: Tree, d: string): (r: Option<Tree>)
    requires !IsRoot(d)
    ensures r.Some? ==> Extends(fs, r.value) && d in r.value && r.value[d].Directory?
    ensures r.None? ==> Blocked(fs, d)
    decreases |d|
  {
    if d in fs then
      if fs[d].Directory? then Some(fs) else None
    else
      var parent := Dirname(d);
      var above := if IsRoot(parent) then Some(fs) else MakeMissing(fs, parent);
      match above
      case None => None
      case Some(fs1) =>
        var r := Link(fs1, d, Directory([]));
        assert Extends(fs, r) by {
          forall q | q in fs ensures !fs[q].Directory? ==> r[q] == fs[q] {
            if q == Dirname(d) && !fs[q].Directory? { assert !fs1[q].Directory?; }
          }
        }
        Some(r)
  }

  /**
   * `fs.mkdir(d, {recursive: true})`: creates `d` and every missing
   * directory above it. An entry at `d` that is not a directory fails with
   * `EEXIST`; one above it fails with `ENOTDIR`, naming `d` all the same.
   */
  function MakeDirs(fs: Tree, d: string): (r: Result<Tree>)
    ensures r.Ok? ==> Extends(fs, r.value)
    ensures r.Ok? && !IsRoot(d) ==> d in r.value && r.value[d].Directory?
    ensures r.Err? ==> Blocked(fs, d)
    ensures r.Err? && d in fs ==> r.error == AlreadyExists(d)
    ensures r.Err? && d !in fs ==> r.error == NotADirectory(d)
  {
    if IsRoot(d) then Ok(fs)
    else if d in fs && !fs[d].Directory? then Err(AlreadyExists(d))
    else
      match MakeMissing(fs, d)
      case None => Err(NotADirectory(d))
      case Some(fs1) => Ok(fs1)
  }

  /** In a rooted file system, `MakeMissing` finds nothing exactly when the target is blocked. */
  lemma {:induction false} MakeMissingBlocked(fs: Tree, d: string)
    requires Rooted(fs) && !IsRoot(d)
    ensures MakeMissing(fs, d).None? <==> Blocked(fs, d)
    decreases |d|
  {
    var parent := Dirname(d);
    assert Up(d) == [d] + (if IsRoot(parent) then [] else Up(parent));
    if d in fs {
      if fs[d].Directory? {
        DirectoryNotBlocked(fs, d);
      }
    } else if !IsRoot(parent) {
      MakeMissingBlocked(fs, parent);
    }
  }

  /** In a rooted file system, nothing at or above a directory is blocked. */
  lemma {:induction false} DirectoryNotBlocked(fs: Tree, d: string)
    requires Rooted(fs) && !IsRoot(d) && d in fs && fs[d].Directory?
    ensures !Blocked(fs, d)
    decreases |d|
  {
    var parent := Dirname(d);
    assert Up(d) == [d] + (if IsRoot(parent) then [] else Up(parent));
    if !IsRoot(parent) {
      DirectoryNotBlocked(fs, parent);
    }
  }

  /**
   * In a rooted file system, a recursive `mkdir` fails exactly when `d` or a
   * directory above it is an entry that is not a directory.
   */
  lemma MakeDirsFailsIff(fs: Tree, d: string)
    requires Rooted(fs)
    ensures MakeDirs(fs, d).Err? <==> Blocked(fs, d)
  {
    if !IsRoot(d) {
      MakeMissingBlocked(fs, d);
    }
  }

  /** `writeFile`: creates the parent directories, then writes the content. */
  function Write(fs: Tree, path: string, content: string): (r: Result<Tree>)
    ensures r.Ok? ==> path in r.value && r.value[path] == RegularFile(Ok(content)) && fs.Keys <= r.value.Keys
    ensures r.Err? ==> StartsWith(r.error, "Failed to write to " + path + ": ")
  {
    var dir := Dirname(path);
    match MakeDirs(fs, dir)
    case Err(m) => Err(WriteFailed(path, m))
    case Ok(fs1) =>
      if IsRoot(path) || (path in fs1 && fs1[path].Directory?) then Err(WriteFailed(path, IsADirectory(path)))
      else Ok(Link(fs1, path, RegularFile(Ok(content))))
  }

  // ---------------------------------------------------------------- execute

  /** `execute`: the outcome and the file system after it. */
  function Run(node: FileNode, params: RunParams, fs: Tree): (r: (Outcome, Tree))
    ensures !r.0.Wrote? ==> r.1 == fs
    ensures r.0.Wrote? ==> Effective(node, params).mode == "write" && Given(Effective(node, params).content)
  {
    var eff := Effective(node, params);
    if eff.mode == "read" then
      match Read(fs, eff.path)
      case Ok(t) => (Text(t), fs)
      case Err(m) => (Terminated(m), fs)
    else if eff.mode == "write" then
      if !Given(eff.content) then (Terminated(ContentRequired), fs)
      else
        match Write(fs, eff.path, eff.content.value)
        case Ok(fs1) => (Wrote, fs1)
        case Err(m) => (Terminated(m), fs)
    else (Terminated("Invalid mode: " + eff.mode), fs)
  }

  /** `execute` on the file system `files`. */
  method Execute(node: FileNode, params: RunParams, files: FileSystem) returns (r: Outcome)
    modifies files
    ensures (r, files.entries) == Run(node, params, old(files.entries))
  {
    var mode := Pick(params.mode, node.mode);
    var path := Pick(params.path, node.path);
    var content := PickOpt(params.content, node.content);
    if mode == "read" {
      var text := ReadPath(files.entries, path);
      r := if text.Ok? then Text(text.value) else Terminated(text.error);
    } else if mode == "write" {
      if !Given(content) {
        return Terminated(ContentRequired);
      }
      var written := Write(files.entries, path, content.value);
      if written.Ok? {
        files.entries := written.value;
        r := Wrote;
      } else {
        r := Terminated(written.error);
      }
    } else {
      r := Terminated("Invalid mode: " + mode);
    }
  }

  // ---------------------------------------------------------------- properties

  /** Appending one part to a join adds the separator only after a non-empty list. */
  lemma {:induction false} JoinSnoc(parts: seq<string>, b: string, sep: string)
    ensures Join(parts + [b], sep) == if parts == [] then b else Join(parts, sep) + sep + b
  {
    if |parts| >= 2 {
      assert (parts + [b])[1..] == parts[1..] + [b];
      JoinSnoc(parts[1..], b, sep);
    } else if |parts| == 1 {
      assert (parts + [b])[1..] == [b];
    }
  }

  /** A join of non-empty parts is empty exactly when there are no parts, and starts with the first part. */
  lemma {:induction false} JoinNonEmpty(parts: seq<string>, sep: string)
    requires forall k | 0 <= k < |parts| :: StartsWith(parts[k], "# ")
    ensures Join(parts, sep) == "" <==> parts == []
    ensures parts != [] ==> StartsWith(Join(parts, sep), "# ")
  {
    if |parts| >= 2 {
      var j := Join(parts, sep);
      assert j == parts[0] + (sep + Join(parts[1..], sep));
      assert j[..2] == parts[0][..2];
    }
  }

  /** One entry of the directory loop appends its contribution, if any, to the joined blocks. */
  lemma CollectStep(fs: Tree, dir: string, names: seq<string>, i: nat, done: seq<string>)
    requires i < |names| && JoinPath(dir, names[i]) in fs
    requires forall k | 0 <= k < |done| :: StartsWith(done[k], "# ")
    ensures var full := JoinPath(dir, names[i]);
      Collect(fs, dir, names, i, Join(done, Separator))
      == Collect(fs, dir, names, i + 1, Join(done + Contribution(fs[full], full), Separator))
  {
    var full := JoinPath(dir, names[i]);
    var c := Contribution(fs[full], full);
    if c != [] {
      JoinSnoc(done, c[0], Separator);
      JoinNonEmpty(done, Separator);
      assert c == [c[0]];
    } else {
      assert done + c == done;
    }
  }

  /** The reference reading of the names from `i` on: the entry at `i`, then the rest. */
  lemma ListingStep(fs: Tree, dir: string, names: seq<string>, i: nat)
    requires i < |names|
    ensures var full := JoinPath(dir, names[i]);
      Listing(fs, dir, names[i..]) ==
        if full !in fs then Err(StatError(full))
        else match Listing(fs, dir, names[i + 1..])
          case Err(m) => Err(m)
          case Ok(rest) => Ok(Contribution(fs[full], full) + rest)
  {
    assert names[i..][0] == names[i] && names[i..][1..] == names[i + 1..];
  }

  /** The directory loop builds exactly the reference blocks joined by a blank line. */
  lemma {:induction false} CollectJoins(fs: Tree, dir: string, names: seq<string>, i: nat, done: seq<string>)
    requires i <= |names|
    requires forall k | 0 <= k < |done| :: StartsWith(done[k], "# ")
    ensures Collect(fs, dir, names, i, Join(done, Separator)) ==
      match Listing(fs, dir, names[i..])
      case Ok(rest) => Ok(Join(done + rest, Separator))
      case Err(m) => Err(m)
    decreases |names| - i
  {
    if i < |names| {
      var full := JoinPath(dir, names[i]);
      ListingStep(fs, dir, names, i);
      if full in fs {
        var c := Contribution(fs[full], full);
        var next := done + c;
        assert forall k | 0 <= k < |next| :: StartsWith(next[k], "# ") by {
          forall k | 0 <= k < |next| ensures StartsWith(next[k], "# ") {
            if k >= |done| { assert next[k] == c[k - |done|]; }
          }
        }
        CollectStep(fs, dir, names, i, done);
        CollectJoins(fs, dir, names, i + 1, next);
        match Listing(fs, dir, names[i + 1..])
        case Ok(rest) =>
          assert next + rest == done + (c + rest);
        case Err(_) =>
      }
    } else {
      assert names[i..] == [] && done + [] == done;
    }
  }

  /** The directory loop from the start yields the reference blocks joined by a blank line. */
  lemma CollectAll(fs: Tree, dir: string, names: seq<string>)
    ensures Collect(fs, dir, names, 0, "") ==
      match Listing(fs, dir, names)
      case Ok(blocks) => Ok(Join(blocks, Separator))
      case Err(m) => Err(m)
  {
    CollectJoins(fs, dir, names, 0, []);
    assert names[0..] == names && Join([], Separator) == "";
    match Listing(fs, dir, names)
    case Ok(blocks) => assert [] + blocks == blocks;
    case Err(_) =>
  }

  /**
   * Reading a directory whose listed names all exist yields the blocks of
   * its readable regular files, in sorted name order, joined by a blank
   * line; the names are visited sorted whatever order the system lists
   * them in.
   */
  lemma ReadDirectory(fs: Tree, path: string)
    requires path in fs && fs[path].Directory?
    requires forall n | n in fs[path].names :: JoinPath(path, n) in fs
    ensures Sorted(Sort(fs[path].names)) && multiset(Sort(fs[path].names)) == multiset(fs[path].names)
    ensures Listing(fs, path, Sort(fs[path].names)).Ok?
    ensures Read(fs, path) == Ok(Join(Listing(fs, path, Sort(fs[path].names)).value, Separator))
  {
    var sorted := Sort(fs[path].names);
    forall n | n in sorted ensures JoinPath(path, n) in fs {
      assert n in multiset(sorted);
    }
    CollectAll(fs, path, sorted);
  }

  /** A directory listing entry that is missing from the file system fails the whole read. */
  lemma MissingEntryFails(fs: Tree, path: string)
    requires path in fs && fs[path].Directory?
    requires exists n | n in fs[path].names :: JoinPath(path, n) !in fs
    ensures Read(fs, path).Err?
  {
    var sorted := Sort(fs[path].names);
    var n :| n in fs[path].names && JoinPath(path, n) !in fs;
    assert n in multiset(fs[path].names);
    assert n in sorted;
    CollectAll(fs, path, sorted);
  }

  /** The text of a directory is empty exactly when it holds no readable regular file, and otherwise starts with a header. */
  lemma DirectoryText(fs: Tree, path: string, text: string)
    requires path in fs && fs[path].Directory?
    requires Read(fs, path) == Ok(text)
    ensures Listing(fs, path, Sort(fs[path].names)).Ok?
    ensures text == "" <==> Listing(fs, path, Sort(fs[path].names)).value == []
    ensures text != "" ==> StartsWith(text, "# ")
  {
    var sorted := Sort(fs[path].names);
    CollectAll(fs, path, sorted);
    JoinNonEmpty(Listing(fs, path, sorted).value, Separator);
  }

  /** A name whose entry is not a readable regular file contributes nothing: reading is as if it were not listed. */
  lemma {:induction false} SkipUnreadable(fs: Tree, dir: string, names: seq<string>, k: nat)
    requires k < |names| && JoinPath(dir, names[k]) in fs
    requires !(fs[JoinPath(dir, names[k])].RegularFile? && fs[JoinPath(dir, names[k])].content.Ok?)
    ensures Listing(fs, dir, names) == Listing(fs, dir, names[..k] + names[k + 1..])
  {
    if k == 0 {
      assert names[..0] + names[1..] == names[1..];
      match Listing(fs, dir, names[1..])
      case Ok(rest) => assert [] + rest == rest;
      case Err(_) =>
    } else {
      var shorter := names[..k] + names[k + 1..];
      assert shorter[0] == names[0];
      assert shorter[1..] == names[1..][..k - 1] + names[1..][k..];
      SkipUnreadable(fs, dir, names[1..], k - 1);
    }
  }

  /** Reading one regular file gives its header and content. */
  lemma ReadSingleFile(fs: Tree, path: string, content: string)
    requires path in fs && fs[path] == RegularFile(Ok(content))
    ensures Read(fs, path) == Ok("# " + path + "\n" + content)
  {
  }

  /** A file whose read fails reports the path in both error wrappers; a missing path reports the failed stat. */
  lemma ReadErrors(fs: Tree, path: string, m: string)
    ensures path !in fs ==> Read(fs, path) == Err(ReadFailed(path, StatError(path)))
    ensures path in fs && fs[path] == RegularFile(Err(m)) ==>
      Read(fs, path) == Err(ReadFailed(path, ReadFailed(path, m)))
  {
  }

  /** `mkdir` leaves every file untouched and the directory it made is there afterwards. */
  lemma WriteThenRead(fs: Tree, path: string, content: string)
    requires Write(fs, path, content).Ok?
    ensures var fs' := Write(fs, path, content).value;
      && Read(fs', path) == Ok(Block(path, content))
      && (!IsRoot(Dirname(path)) ==> Dirname(path) in fs' && fs'[Dirname(path)].Directory? && Basename(path) in fs'[Dirname(path)].names)
      && fs.Keys <= fs'.Keys
      && forall q | q in fs && q != path && !fs[q].Directory? :: fs'[q] == fs[q]
  {
    var fs1 := MakeDirs(fs, Dirname(path)).value;
    var fs' := Write(fs, path, content).value;
    assert Dirname(path) != path;
    if !IsRoot(Dirname(path)) {
      assert Dirname(path) in fs1 && fs1[Dirname(path)].Directory?;
    }
    forall q | q in fs && q != path && !fs[q].Directory? ensures fs'[q] == fs[q] {
      assert fs1[q] == fs[q];
      if q == Dirname(path) {
        assert !fs1[Dirname(path)].Directory?;
      }
    }
  }

  /** A write under a path whose parent is a file fails and changes nothing. */
  lemma WriteUnderFileFails(fs: Tree, path: string, content: string)
    requires !IsRoot(Dirname(path)) && Dirname(path) in fs && !fs[Dirname(path)].Directory?
    ensures Write(fs, path, content) == Err(WriteFailed(path, AlreadyExists(Dirname(path))))
  {
  }

  /** Truthy call-time values replace the node's own ones, and `execute` only sees the result. */
  lemma CallTimeOverrides(node: FileNode, params: RunParams, fs: Tree)
    ensures Run(node, params, fs) == Run(Effective(node, params), RunParams(None, None, None), fs)
  {
  }

  /** Write mode without truthy content, or a mode other than read and write, ends the process and changes nothing. */
  lemma ModeErrors(node: FileNode, fs: Tree)
    ensures node.mode == "write" && !Given(node.content) ==>
      Run(node, RunParams(None, None, None), fs) == (Terminated(ContentRequired), fs)
    ensures node.mode != "read" && node.mode != "write" ==>
      Run(node, RunParams(None, None, None), fs) == (Terminated("Invalid mode: " + node.mode), fs)
  {
  }

  /** Read mode never changes the file system; a successful write returns `true` and leaves the content readable. */
  lemma RunEffects(node: FileNode, fs: Tree)
    ensures node.mode == "read" ==> Run(node, RunParams(None, None, None), fs).1 == fs
    ensures node.mode == "write" && Given(node.content) && Write(fs, node.path, node.content.value).Ok? ==>
      Run(node, RunParams(None, None, None), fs).0 == Wrote
      && Read(Run(node, RunParams(None, None, None), fs).1, node.path) == Ok(Block(node.path, node.content.value))
  {
    if node.mode == "write" && Given(node.content) && Write(fs, node.path, node.content.value).Ok? {
      WriteThenRead(fs, node.path, node.content.value);
    }
  }
}
