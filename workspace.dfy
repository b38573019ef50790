/** The file tools of the workspace server: `write_file`, `read_file` and
    `list_files`, each behind the path guard of module Paths.

    The file system is a map from resolved absolute paths to file contents
    together with the set of resolved paths that are directories.  Keys are
    the paths the guard computes, so two names that normalise to the same
    path name the same file -- except that the kernel takes a joined path
    whose last piece is empty, "." or ".." to name a directory. */
module WorkspaceFiles {
  import opened Paths

  /** Why `open` failed: the target is a directory (EISDIR), a component
      that must be a directory does not exist (ENOENT), or it is a file
      (ENOTDIR). */
  datatype IoFailure = IsADirectory | MissingDirectory | NotADirectory

  datatype FileSystem = FileSystem(files: map<string, string>, dirs: set<string>)

  /** The text of the Python exception for a failure on the joined path. */
  type Describe = (IoFailure, string) -> string

  const WorkspaceName := "terraform_workspace"
  const WriteRejected := "Error: Cannot write outside workspace directory."
  const ReadRejected := "Error: Cannot read outside workspace directory."

  predicate Absolute(root: string)
  {
    |root| > 0 && root[0] == '/'
  }

  /** A file system whose directories include the root and never clash
      with a file. */
  predicate Valid(fs: FileSystem, root: string)
  {
    root in fs.dirs && fs.files.Keys !! fs.dirs
  }

  // ---------------------------------------------------------------------
  // The directory part of a path

  /** Index of the last '/' in `p[..n]`, or -1. */
  function LastSlashBelow(p: string, n: nat): (r: int)
    requires n <= |p|
    ensures -1 <= r < n
    ensures r >= 0 ==> p[r] == '/'
    ensures forall k :: r < k < n ==> p[k] != '/'
  {
    if n == 0 then -1
    else if p[n - 1] == '/' then n - 1
    else LastSlashBelow(p, n - 1)
  }

  /** The directory part of a path, as `posixpath.dirname` gives it for a
      normalised path: everything before the last '/', or "/" when that
      slash is the first character. */
  function ParentDir(p: string): (r: string)
    ensures r <= p
  {
    var i := LastSlashBelow(p, |p|);
    if i < 0 then "" else if i == 0 then "/" else p[..i]
  }

  /** The parent of an entry directly below `dir` is `dir`. */
  lemma ParentOfChild(dir: string, n: string)
    requires dir != [] && n != [] && '/' !in n
    ensures ParentDir(dir + "/" + n) == dir
  {
    var p := dir + "/" + n;
    var i := LastSlashBelow(p, |p|);
    assert p[|dir|] == '/';
    forall k | |dir| < k < |p|
      ensures p[k] != '/'
    {
      assert p[k] == n[k - |dir| - 1];
    }
    assert i == |dir|;
  }

  /** The last piece of `p.split("/")`. */
  function LastPiece(p: string): string
  {
    var parts := Split(p);
    parts[|parts| - 1]
  }

  /** A path that ends in '/', "/." or "/..": the kernel resolves it only
      to a directory. */
  predicate NamesDirectory(p: string)
  {
    var last := LastPiece(p);
    last == "" || last == "." || last == ".."
  }

  // ---------------------------------------------------------------------
  // The three tools on a file system value

  /** `write_file`: the guard, then `open(filepath, "w")`, which fails on a
      directory, when the parent is not an existing directory, and on a
      joined path that names a directory: with ENOTDIR when a file is
      there, with EISDIR for a trailing '/' to create, and with ENOENT for
      a trailing "." or "..". */
  function WriteOutcome(describe: Describe, fs: FileSystem, root: string, name: string, content: string): (r: (FileSystem, string))
    requires Absolute(root)
    ensures r.0.dirs == fs.dirs
    ensures r.0.files == fs.files || (Accepts(root, name) && r.0.files == fs.files[Resolve(root, name) := content])
  {
    if !Accepts(root, name) then (fs, WriteRejected)
    else
      var p := Resolve(root, name);
      var joined := PyJoin(root, name);
      if p in fs.dirs then (fs, "Error writing file: " + describe(IsADirectory, joined))
      else if ParentDir(p) !in fs.dirs then (fs, "Error writing file: " + describe(MissingDirectory, joined))
      else if NamesDirectory(joined) then
        var failure := if p in fs.files then NotADirectory else if LastPiece(joined) == "" then IsADirectory else MissingDirectory;
        (fs, "Error writing file: " + describe(failure, joined))
      else (fs.(files := fs.files[p := content]), "Successfully wrote to " + name)
  }

  /** What `f.read()` gives for a file opened in text mode without a
      `newline` argument: "\r\n" and a lone "\r" both read as "\n". */
  function UniversalNewlines(s: string): (r: string)
    ensures '\r' !in r && |r| <= |s|
  {
    if s == [] then []
    else if s[0] == '\r' then
      if |s| >= 2 && s[1] == '\n' then "\n" + UniversalNewlines(s[2..]) else "\n" + UniversalNewlines(s[1..])
    else [s[0]] + UniversalNewlines(s[1..])
  }

  /** Text without a carriage return reads back as it was written. */
  lemma {:induction false} NoCarriageReturnKept(s: string)
    requires '\r' !in s
    ensures UniversalNewlines(s) == s
  {
    if s != [] {
      NoCarriageReturnKept(s[1..]);
      assert s == [s[0]] + s[1..];
    }
  }

  /** Reading back what was read changes nothing more. */
  lemma TranslationIdempotent(s: string)
    ensures UniversalNewlines(UniversalNewlines(s)) == UniversalNewlines(s)
  {
    NoCarriageReturnKept(UniversalNewlines(s));
  }

  /** `os.path.exists(filepath)`: a directory, or a file reached by a
      path that does not name a directory. */
  predicate Exists(fs: FileSystem, p: string, joined: string)
  {
    p in fs.dirs || (p in fs.files && !NamesDirectory(joined))
  }

  /** `read_file`: the guard, the existence test, then `open(filepath)`,
      which fails on a directory, and a read in text mode. */
  function ReadOutcome(describe: Describe, fs: FileSystem, root: string, name: string): string
    requires Absolute(root)
  {
    if !Accepts(root, name) then ReadRejected
    else
      var p := Resolve(root, name);
      var joined := PyJoin(root, name);
      if !Exists(fs, p, joined) then "Error: File " + name + " not found."
      else if p in fs.dirs then "Error reading file: " + describe(IsADirectory, joined)
      else UniversalNewlines(fs.files[p])
  }

  /** `path` is an entry directly inside `dir`. */
  predicate IsChild(dir: string, path: string)
  {
    |path| > |dir| + 1 && path[..|dir| + 1] == dir + "/" && '/' !in path[|dir| + 1..]
  }

  /** What `os.listdir(root)` returns, as a set: the names of the files and
      directories directly inside the root. */
  function Entries(fs: FileSystem, root: string): (r: set<string>)
    ensures forall e :: e in r ==> e != [] && '/' !in e
  {
    set k | k in fs.files.Keys + fs.dirs && IsChild(root, k) :: k[|root| + 1..]
  }

  /** `"\n".join(names)`. */
  function JoinLines(names: seq<string>): string
  {
    if names == [] then ""
    else if |names| == 1 then names[0]
    else JoinLines(names[..|names| - 1]) + "\n" + names[|names| - 1]
  }

  /** `order` lists every element of `s` once, in some order. */
  predicate Enumerates(order: seq<string>, s: set<string>)
  {
    (forall i, j :: 0 <= i < j < |order| ==> order[i] != order[j]) &&
    (forall x :: x in order ==> x in s) && (forall x :: x in s ==> x in order)
  }

  // ---------------------------------------------------------------------
  // What the guard and the tools promise

  /** A write is turned away with the guard's message exactly when the
      guard rejects the name, and then nothing changes. */
  lemma WriteGuard(describe: Describe, fs: FileSystem, root: string, name: string, content: string)
    requires Absolute(root)
    ensures var r := WriteOutcome(describe, fs, root, name, content);
      (r.1 == WriteRejected <==> !Accepts(root, name)) && (!Accepts(root, name) ==> r.0 == fs)
  {
    var r := WriteOutcome(describe, fs, root, name, content);
    if Accepts(root, name) {
      assert r.1[0] != WriteRejected[0] || r.1[5] != WriteRejected[5];
    }
  }

  /** A read is turned away with the guard's message whenever the guard
      rejects the name.  An accepted name gives the not-found message when
      nothing is there or when a file is reached by a path naming a
      directory ("x/" for a file x), the error for a directory, and
      otherwise the file's contents with their line ends translated. */
  lemma ReadGuard(describe: Describe, fs: FileSystem, root: string, name: string)
    requires Absolute(root)
    ensures var r := ReadOutcome(describe, fs, root, name);
      var p := Resolve(root, name);
      var joined := PyJoin(root, name);
      (!Accepts(root, name) ==> r == ReadRejected) &&
      (Accepts(root, name) && p !in fs.dirs && (p !in fs.files || NamesDirectory(joined)) ==> r == "Error: File " + name + " not found.") &&
      (Accepts(root, name) && p in fs.dirs ==> r == "Error reading file: " + describe(IsADirectory, joined)) &&
      (Accepts(root, name) && p in fs.files && p !in fs.dirs && !NamesDirectory(joined) ==> r == UniversalNewlines(fs.files[p]))
  {
  }

  /** The conditions under which `open(filepath, "w")` succeeds: the guard
      accepts, the target is not a directory, its parent is one, and the
      joined path does not name a directory. */
  predicate Writable(fs: FileSystem, root: string, name: string)
    requires Absolute(root)
  {
    Accepts(root, name) && Resolve(root, name) !in fs.dirs && ParentDir(Resolve(root, name)) in fs.dirs &&
    !NamesDirectory(PyJoin(root, name))
  }

  /** A write succeeds exactly when the name is writable, and a failed
      write changes nothing. */
  lemma WriteSucceeds(describe: Describe, fs: FileSystem, root: string, name: string, content: string)
    requires Absolute(root)
    ensures var r := WriteOutcome(describe, fs, root, name, content);
      (r.1 == "Successfully wrote to " + name <==> Writable(fs, root, name)) &&
      (!Writable(fs, root, name) ==> r.0 == fs)
  {
    var r := WriteOutcome(describe, fs, root, name, content);
    assert ("Successfully wrote to " + name)[0] == 'S';
    if !Accepts(root, name) {
      assert r.1[5] != ("Successfully wrote to " + name)[5];
    } else if !Writable(fs, root, name) {
      var failure :| r.1 == "Error writing file: " + describe(failure, PyJoin(root, name));
      assert r.1[0] == 'E';
    }
  }

  /** An accepted write reports success, and reading back any name that
      resolves to the same path, by a path that does not name a directory,
      returns the contents written with their line ends translated -- the
      exact contents when they hold no carriage return; read through "x/"
      the file is not found. */
  lemma WriteThenRead(describe: Describe, fs: FileSystem, root: string, name: string, content: string, again: string)
    requires Absolute(root) && Writable(fs, root, name)
    requires Resolve(root, again) == Resolve(root, name)
    ensures var r := WriteOutcome(describe, fs, root, name, content);
      r.1 == "Successfully wrote to " + name &&
      ReadOutcome(describe, r.0, root, again) ==
        (if NamesDirectory(PyJoin(root, again)) then "Error: File " + again + " not found." else UniversalNewlines(content))
    ensures '\r' !in content && !NamesDirectory(PyJoin(root, again)) ==>
      ReadOutcome(describe, WriteOutcome(describe, fs, root, name, content).0, root, again) == content
  {
    if '\r' !in content {
      NoCarriageReturnKept(content);
    }
  }

  /** The example of a Windows line end: "a\r\nb" is written as it is and
      read back as "a\nb". */
  lemma CrLfReadBack(describe: Describe, fs: FileSystem, segs: seq<string>, n: string)
    requires IsRoot(segs) && Valid(fs, RootOf(segs)) && Proper(n) && RootOf(segs) + "/" + n !in fs.dirs
    ensures var root := RootOf(segs);
      var next := WriteOutcome(describe, fs, root, n, "a\r\nb").0;
      next.files == fs.files[root + "/" + n := "a\r\nb"] && ReadOutcome(describe, next, root, n) == "a\nb"
  {
    var root := RootOf(segs);
    PlainWrite(describe, fs, segs, n, "a\r\nb");
    PlainNameResolves(segs, n);
    PlainNameIsFile(segs, n);
    var next := WriteOutcome(describe, fs, root, n, "a\r\nb").0;
    ReadThroughFile(describe, next, root, n);
    assert UniversalNewlines("a\r\nb") == "a\nb" by {
      var t := "a\r\nb";
      assert t[1..][2..] == "b" && t[1..] == "\r\nb";
      assert UniversalNewlines("b") == "b";
      assert UniversalNewlines(t[1..]) == "\n" + UniversalNewlines("b");
    }
  }

  /** A file reached by a path that does not name a directory reads as its
      contents with the line ends translated. */
  lemma ReadThroughFile(describe: Describe, fs: FileSystem, root: string, name: string)
    requires Absolute(root) && Accepts(root, name) && !NamesDirectory(PyJoin(root, name))
    requires Resolve(root, name) in fs.files && Resolve(root, name) !in fs.dirs
    ensures ReadOutcome(describe, fs, root, name) == UniversalNewlines(fs.files[Resolve(root, name)])
  {
  }

  /** A write leaves every other path, and so every read of a name that
      resolves elsewhere, as it was. */
  lemma WriteKeepsOthers(describe: Describe, fs: FileSystem, root: string, name: string, content: string, other: string)
    requires Absolute(root)
    requires Resolve(root, other) != Resolve(root, name)
    ensures var next := WriteOutcome(describe, fs, root, name, content).0;
      ReadOutcome(describe, next, root, other) == ReadOutcome(describe, fs, root, other)
  {
  }

  /** Every path a write can change starts with the root string. */
  lemma WriteStaysUnderPrefix(describe: Describe, fs: FileSystem, root: string, name: string, content: string, q: string)
    requires Absolute(root)
    requires !(root <= q)
    ensures var next := WriteOutcome(describe, fs, root, name, content).0;
      (q in next.files <==> q in fs.files) && (q in fs.files ==> next.files[q] == fs.files[q])
  {
  }

  /** Writes keep a valid file system valid. */
  lemma WriteKeepsValid(describe: Describe, fs: FileSystem, root: string, name: string, content: string)
    requires Absolute(root) && Valid(fs, root)
    ensures Valid(WriteOutcome(describe, fs, root, name, content).0, root)
  {
  }

  // ---------------------------------------------------------------------
  // Plain names inside the workspace

  /** A plain file name resolves to the entry of that name in the root. */
  lemma PlainNameResolves(segs: seq<string>, n: string)
    requires IsRoot(segs) && Proper(n)
    ensures Resolve(RootOf(segs), n) == RootOf(segs) + "/" + n
    ensures Accepts(RootOf(segs), n)
  {
    SplitNoSlash(n);
    CollapseProper([n]);
    RelativeStaysInside(segs, n);
    assert JoinSlash([n]) == n;
  }

  /** The last piece of a path is what follows its last '/'. */
  lemma LastPieceAfter(a: string, f: string)
    requires '/' !in f
    ensures LastPiece(a + "/" + f) == f
  {
    SplitAppend(a, f);
    SplitNoSlash(f);
  }

  /** The joined path of a plain name ends in that name. */
  lemma PlainNameIsFile(segs: seq<string>, n: string)
    requires IsRoot(segs) && Proper(n)
    ensures !NamesDirectory(PyJoin(RootOf(segs), n))
  {
    JoinedComponents(segs, n);
    LastPieceAfter(RootOf(segs), n);
  }

  /** "<n>/" splits into the name and an empty piece. */
  lemma SplitTrailingSlash(n: string)
    requires Proper(n)
    ensures Split(n + "/") == [n, ""] && Collapse(Split(n + "/")) == [n]
  {
    assert n + "/" == n + "/" + "";
    SplitAppend(n, "");
    SplitNoSlash(n);
    assert [n, ""][..1] == [n];
    CollapseProper([n]);
  }

  /** The joined path of "<n>/" ends in '/', and resolves where "<n>" does. */
  lemma SlashNameIsDirectory(segs: seq<string>, n: string)
    requires IsRoot(segs) && Proper(n)
    ensures NamesDirectory(PyJoin(RootOf(segs), n + "/"))
    ensures Resolve(RootOf(segs), n + "/") == Resolve(RootOf(segs), n)
  {
    var root := RootOf(segs);
    JoinedComponents(segs, n + "/");
    assert root + "/" + (n + "/") == (root + "/" + n) + "/" + "";
    LastPieceAfter(root + "/" + n, "");
    SplitTrailingSlash(n);
    RelativeStaysInside(segs, n + "/");
    PlainNameResolves(segs, n);
    assert JoinSlash([n]) == n;
  }

  /** `write_file("<n>/")` fails whatever is at `<n>`, and changes nothing. */
  lemma TrailingSlashWriteFails(describe: Describe, fs: FileSystem, segs: seq<string>, n: string, content: string)
    requires IsRoot(segs) && Proper(n)
    ensures var r := WriteOutcome(describe, fs, RootOf(segs), n + "/", content);
      r.0 == fs && r.1 != "Successfully wrote to " + n + "/"
  {
    SlashNameIsDirectory(segs, n);
    WriteSucceeds(describe, fs, RootOf(segs), n + "/", content);
  }

  /** `read_file("<n>/")` for a file `<n>` reports that it is not found. */
  lemma TrailingSlashReadFails(describe: Describe, fs: FileSystem, segs: seq<string>, n: string)
    requires IsRoot(segs) && Proper(n)
    requires RootOf(segs) + "/" + n in fs.files && RootOf(segs) + "/" + n !in fs.dirs
    ensures ReadOutcome(describe, fs, RootOf(segs), n + "/") == "Error: File " + (n + "/") + " not found."
  {
    var root := RootOf(segs);
    var name := n + "/";
    SlashNameIsDirectory(segs, n);
    PlainNameResolves(segs, n);
    ReadThroughDirectoryName(describe, fs, root, name);
  }

  /** A file reached by a path that names a directory is not found. */
  lemma ReadThroughDirectoryName(describe: Describe, fs: FileSystem, root: string, name: string)
    requires Absolute(root) && Accepts(root, name) && NamesDirectory(PyJoin(root, name))
    requires Resolve(root, name) !in fs.dirs
    ensures ReadOutcome(describe, fs, root, name) == "Error: File " + name + " not found."
  {
  }

  /** "./<n>" and "<n>" name the same file. */
  lemma DotPrefixSame(segs: seq<string>, n: string)
    requires IsRoot(segs) && Proper(n)
    ensures Resolve(RootOf(segs), "./" + n) == Resolve(RootOf(segs), n)
  {
    var name := "./" + n;
    assert name == "." + "/" + n;
    SplitAppend(".", n);
    SplitNoSlash(".");
    SplitNoSlash(n);
    assert Split(name) == [".", n];
    assert [".", n][..1] == ["."] && ["."][..0] == [];
    assert Collapse(["."]) == [];
    assert Collapse([".", n]) == [] + [n];
    RelativeStaysInside(segs, name);
    PlainNameResolves(segs, n);
    assert JoinSlash([n]) == n;
  }

  lemma ChildEntry(dir: string, n: string)
    requires n != [] && '/' !in n
    ensures IsChild(dir, dir + "/" + n) && (dir + "/" + n)[|dir| + 1..] == n
  {
    var k := dir + "/" + n;
    assert k[..|dir| + 1] == dir + "/";
    assert k[|dir| + 1..] == n;
  }

  /** Storing at a path adds its name to the listing when it lies directly
      in the root, and changes the listing in no other way. */
  lemma EntriesAfterStore(fs: FileSystem, root: string, p: string, content: string)
    ensures var next := fs.(files := fs.files[p := content]);
      Entries(next, root) == Entries(fs, root) + (if IsChild(root, p) then {p[|root| + 1..]} else {})
  {
    var next := fs.(files := fs.files[p := content]);
    assert next.files.Keys + next.dirs == fs.files.Keys + fs.dirs + {p};
  }

  /** Writing a plain name into a valid workspace succeeds unless a
      directory of that name exists, and lists the name afterwards. */
  lemma PlainWrite(describe: Describe, fs: FileSystem, segs: seq<string>, n: string, content: string)
    requires IsRoot(segs) && Valid(fs, RootOf(segs)) && Proper(n)
    requires RootOf(segs) + "/" + n !in fs.dirs
    ensures var root := RootOf(segs);
      var r := WriteOutcome(describe, fs, root, n, content);
      r.1 == "Successfully wrote to " + n &&
      r.0.files == fs.files[root + "/" + n := content] &&
      Entries(r.0, root) == Entries(fs, root) + {n}
  {
    var root := RootOf(segs);
    PlainNameResolves(segs, n);
    PlainNameIsFile(segs, n);
    ParentOfChild(root, n);
    ChildEntry(root, n);
    EntriesAfterStore(fs, root, root + "/" + n, content);
  }

  /** A sibling of the root whose name extends the root's last component
      passes the guard: when its directory exists the write lands outside
      the root. */
  lemma SiblingWriteEscapes(describe: Describe, fs: FileSystem, segs: seq<string>, tail: string, f: string, content: string)
    requires IsRoot(segs) && tail != [] && Proper(segs[|segs| - 1] + tail) && Proper(f)
    requires var p := Resolve(RootOf(segs), "../" + segs[|segs| - 1] + tail + "/" + f);
      p !in fs.dirs && ParentDir(p) in fs.dirs
    ensures var root := RootOf(segs);
      var name := "../" + segs[|segs| - 1] + tail + "/" + f;
      var p := Resolve(root, name);
      WriteOutcome(describe, fs, root, name, content).0.files == fs.files[p := content] && !WithinRoot(root, p)
  {
    SiblingAccepted(segs, tail, f);
    EndsInFile(segs, "../" + segs[|segs| - 1] + tail, f);
  }

  /** A relative name whose last piece is a file name does not name a
      directory once joined. */
  lemma EndsInFile(segs: seq<string>, dir: string, f: string)
    requires IsRoot(segs) && dir != [] && dir[0] != '/' && Proper(f)
    ensures !NamesDirectory(PyJoin(RootOf(segs), dir + "/" + f))
  {
    var root := RootOf(segs);
    JoinedComponents(segs, dir + "/" + f);
    assert root + "/" + (dir + "/" + f) == (root + "/" + dir) + "/" + f;
    LastPieceAfter(root + "/" + dir, f);
  }

  // ---------------------------------------------------------------------
  // Listing

  /** A list without repetitions drawn from `s` is no longer than `s`. */
  lemma {:induction false} DistinctWithin(order: seq<string>, s: set<string>)
    requires forall i, j :: 0 <= i < j < |order| ==> order[i] != order[j]
    requires forall x :: x in order ==> x in s
    ensures |order| <= |s|
    decreases |order|
  {
    if order != [] {
      var n := |order| - 1;
      var x := order[n];
      forall y | y in order[..n]
        ensures y in s - {x}
      {
        var i :| 0 <= i < n && order[i] == y;
        assert order[i] in order;
      }
      DistinctWithin(order[..n], s - {x});
    }
  }

  /** Two distinct names are listed as two lines, in one order or the other. */
  lemma TwoNamesListed(order: seq<string>, a: string, b: string)
    requires a != b && Enumerates(order, {a, b})
    ensures JoinLines(order) == a + "\n" + b || JoinLines(order) == b + "\n" + a
  {
    assert a in order && b in order;
    assert |order| >= 2 by {
      var i :| 0 <= i < |order| && order[i] == a;
      var j :| 0 <= j < |order| && order[j] == b;
      assert i != j;
    }
    DistinctWithin(order, {a, b});
    assert order[..1] == [order[0]];
  }

  /** In an empty workspace, writing two different plain names leaves
      exactly those two entries. */
  lemma TwoPlainWrites(describe: Describe, segs: seq<string>, a: string, b: string, ca: string, cb: string)
    requires IsRoot(segs) && Proper(a) && Proper(b) && a != b
    ensures var root := RootOf(segs);
      var fs1 := WriteOutcome(describe, FileSystem(map[], {root}), root, a, ca).0;
      Entries(WriteOutcome(describe, fs1, root, b, cb).0, root) == {a, b}
  {
    var root := RootOf(segs);
    var fs0 := FileSystem(map[], {root});
    EmptyWorkspace(segs);
    ChildNotRoot(root, a);
    PlainWrite(describe, fs0, segs, a, ca);
    var fs1 := WriteOutcome(describe, fs0, root, a, ca).0;
    WriteKeepsValid(describe, fs0, root, a, ca);
    ChildNotRoot(root, b);
    PlainWrite(describe, fs1, segs, b, cb);
  }

  /** A fresh workspace directory has no entries. */
  lemma EmptyWorkspace(segs: seq<string>)
    requires IsRoot(segs)
    ensures var root := RootOf(segs);
      Valid(FileSystem(map[], {root}), root) && Entries(FileSystem(map[], {root}), root) == {}
  {
    assert !IsChild(RootOf(segs), RootOf(segs));
  }

  lemma ChildNotRoot(root: string, n: string)
    requires n != []
    ensures root + "/" + n != root
  {
    assert |root + "/" + n| > |root|;
  }

  /** The example of a fresh workspace: after writing "a.txt" and "b.txt"
      the listing holds exactly those two names, one per line. */
  lemma FreshWorkspaceListing(describe: Describe, segs: seq<string>, ca: string, cb: string, order: seq<string>)
    requires IsRoot(segs)
    ensures var root := RootOf(segs);
      var fs1 := WriteOutcome(describe, FileSystem(map[], {root}), root, "a.txt", ca).0;
      var fs2 := WriteOutcome(describe, fs1, root, "b.txt", cb).0;
      Entries(fs2, root) == {"a.txt", "b.txt"} &&
      (Enumerates(order, Entries(fs2, root)) ==> JoinLines(order) == "a.txt" + "\n" + "b.txt" || JoinLines(order) == "b.txt" + "\n" + "a.txt")
  {
    assert Proper("a.txt") && Proper("b.txt") && "a.txt" != "b.txt";
    TwoPlainWrites(describe, segs, "a.txt", "b.txt", ca, cb);
    if Enumerates(order, {"a.txt", "b.txt"}) {
      TwoNamesListed(order, "a.txt", "b.txt");
    }
  }

  // ---------------------------------------------------------------------
  // The server's workspace

  /** The workspace directory and the file system the tools act on.  The
      server creates `<cwd>/terraform_workspace` when it starts. */
  class Workspace {
    const root: string
    const describe: Describe
    var files: map<string, string>
    var dirs: set<string>

    function State(): FileSystem
      reads this
    {
      FileSystem(files, dirs)
    }

    predicate Inv()
      reads this
    {
      Absolute(root) && Valid(State(), root)
    }

    /** `os.path.abspath("terraform_workspace")` and `os.makedirs`, on a
        file system that does not already hold a file at that path. */
    constructor(cwd: seq<string>, describe: Describe, existing: FileSystem)
      requires forall k :: 0 <= k < |cwd| ==> Proper(cwd[k])
      requires existing.files.Keys !! existing.dirs
      requires RootOf(cwd + [WorkspaceName]) !in existing.files
      ensures root == RootOf(cwd + [WorkspaceName]) && this.describe == describe
      ensures files == existing.files && dirs == existing.dirs + {root}
      ensures Inv()
    {
      root := RootOf(cwd + [WorkspaceName]);
      this.describe := describe;
      files := existing.files;
      dirs := existing.dirs + {RootOf(cwd + [WorkspaceName])};
    }

    /** `write_file(filename, content)`. */
    method WriteFile(name: string, content: string) returns (r: string)
      requires Inv()
      modifies this
      ensures Inv()
      ensures (State(), r) == WriteOutcome(describe, old(State()), root, name, content)
    {
      if !Accepts(root, name) {
        return WriteRejected;
      }
      var p := Resolve(root, name);
      var joined := PyJoin(root, name);
      if p in dirs {
        r := "Error writing file: " + describe(IsADirectory, joined);
      } else if ParentDir(p) !in dirs {
        r := "Error writing file: " + describe(MissingDirectory, joined);
      } else if NamesDirectory(joined) {
        var failure := MissingDirectory;
        if p in files {
          failure := NotADirectory;
        } else if LastPiece(joined) == "" {
          failure := IsADirectory;
        }
        r := "Error writing file: " + describe(failure, joined);
      } else {
        files := files[p := content];
        r := "Successfully wrote to " + name;
      }
    }

    /** `read_file(filename)`. */
    method ReadFile(name: string) returns (r: string)
      requires Inv()
      ensures r == ReadOutcome(describe, State(), root, name)
    {
      if !Accepts(root, name) {
        return ReadRejected;
      }
      var p := Resolve(root, name);
      var joined := PyJoin(root, name);
      if p !in dirs && (p !in files || NamesDirectory(joined)) {
        r := "Error: File " + name + " not found.";
      } else if p in dirs {
        r := "Error reading file: " + describe(IsADirectory, joined);
      } else {
        r := UniversalNewlines(files[p]);
      }
    }

    /** `list_files()`: the entries of the root, in an order the file
        system chooses, one per line. */
    method ListFiles() returns (r: string, ghost order: seq<string>)
      requires Inv()
      ensures Enumerates(order, Entries(State(), root))
      ensures r == JoinLines(order)
    {
      var all := Entries(State(), root);
      var left := all;
      var count := 0;
      r := "";
      order := [];
      while left != {}
        invariant left <= all
        invariant forall x :: x in order ==> x in all && x !in left
        invariant forall x :: x in all && x !in left ==> x in order
        invariant forall i, j :: 0 <= i < j < |order| ==> order[i] != order[j]
        invariant count == |order| && r == JoinLines(order)
        decreases |left|
      {
        var e :| e in left;
        r := if count == 0 then e else r + "\n" + e;
        order := order + [e];
        count := count + 1;
        left := left - {e};
      }
    }
  }
}
