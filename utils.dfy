/**
 * The filesystem utilities of provision/utils.py over an abstract
 * filesystem: `mkdir_p` (recursive directory creation), `set_write_bit`,
 * `is_readonly_path`, the `rmtree` error handler `handle_remove_readonly`
 * and the `chdir` context manager.
 *
 * The filesystem is a map from absolute component lists to nodes; the
 * root `[]` is always a directory and every other entry sits in a
 * directory. A path is resolved one component at a time from the working
 * directory: every directory part must be a directory before a further
 * name or a ".." is applied to it (`Lookup`), and the entry it names is
 * then the one at `Paths.Walk`.
 */
module Utils {
  import opened Wrappers
  import opened Text
  import opened Paths

  // errno values of Linux
  const EPERM := 1
  const ENOENT := 2
  const EACCES := 13
  const EEXIST := 17
  const ENOTDIR := 20

  // permission bits of stat(2)
  const S_IRUSR: bv16 := 0x100   // 0o400, also stat.S_IREAD
  const S_IWUSR: bv16 := 0x80    // 0o200, also stat.S_IWRITE
  const S_IREAD: bv16 := S_IRUSR
  const S_IWRITE: bv16 := S_IWUSR
  const MKDIR_MODE: bv16 := 0x1FF  // 0o777, the default mode of os.mkdir

  datatype Kind = Dir | File
  datatype Node = Node(kind: Kind, mode: bv16)
  type Tree = map<seq<string>, Node>

  function Parent(k: seq<string>): seq<string>
    requires k != []
  {
    k[..|k| - 1]
  }

  predicate IsDirKey(t: Tree, k: seq<string>) { k in t && t[k].kind == Dir }

  /** The root is a directory and every other entry lies in a directory. */
  ghost predicate WellFormed(t: Tree) {
    IsDirKey(t, []) && forall k :: k in t && k != [] ==> IsDirKey(t, Parent(k))
  }

  lemma ParentIsDir(t: Tree, k: seq<string>)
    requires WellFormed(t) && k in t && k != []
    ensures IsDirKey(t, Parent(k))
  {
  }

  /** `t2` keeps every entry of `t` unchanged and adds only directories. */
  ghost predicate Grows(t: Tree, t2: Tree) {
    (forall k :: k in t ==> k in t2 && t2[k] == t[k])
    && (forall k :: k in t2 && k !in t ==> t2[k].kind == Dir)
  }

  /**
   * What `os.stat(p)` finds, resolving `p` as the system does: nothing for
   * "", the root for a path of slashes only, and otherwise nothing unless
   * the head of `os.path.split(p)` is empty or itself names a directory;
   * then the entry at the key, except that a file named with a trailing
   * "/", "." or ".." is not found.
   */
  function Lookup(t: Tree, cwd: seq<string>, p: string): (r: Option<Node>)
    ensures r.Some? ==> p != "" && Walk(cwd, p) in t && r.value == t[Walk(cwd, p)]
    ensures r.Some? && MustBeDir(p) ==> r.value.kind == Dir
    decreases |p|
  {
    if p == "" then None
    else if AllSlashes(p) then (if IsDirKey(t, []) then Some(t[[]]) else None)
    else
      var head := Split(p).0;
      var dir := Lookup(t, cwd, head);
      if head != "" && !(dir.Some? && dir.value.kind == Dir) then None
      else
        var k := Walk(cwd, p);
        if k !in t then None
        else if MustBeDir(p) && t[k].kind != Dir then None
        else Some(t[k])
  }

  /** `os.path.exists(p)` */
  predicate Exists(t: Tree, cwd: seq<string>, p: string) { Lookup(t, cwd, p).Some? }

  /** `os.path.isdir(p)` */
  predicate IsDir(t: Tree, cwd: seq<string>, p: string) {
    Lookup(t, cwd, p).Some? && Lookup(t, cwd, p).value.kind == Dir
  }

  /** `os.path.isfile(p)` */
  predicate IsFile(t: Tree, cwd: seq<string>, p: string) {
    Lookup(t, cwd, p).Some? && Lookup(t, cwd, p).value.kind == File
  }

  /** A path whose head is empty or a directory finds the entry at its key, when there is one that fits a trailing "/", "." or "..". */
  lemma LookupEntry(t: Tree, cwd: seq<string>, p: string)
    requires p != "" && !AllSlashes(p) && (Split(p).0 == "" || IsDir(t, cwd, Split(p).0))
    requires Walk(cwd, p) in t && (!MustBeDir(p) || t[Walk(cwd, p)].kind == Dir)
    ensures Lookup(t, cwd, p) == Some(t[Walk(cwd, p)])
  {
  }

  lemma {:induction false} GrowsKeepsLookup(t: Tree, t2: Tree, cwd: seq<string>, p: string)
    requires Grows(t, t2) && Exists(t, cwd, p)
    ensures Lookup(t2, cwd, p) == Lookup(t, cwd, p)
    decreases |p|
  {
    if !AllSlashes(p) && Split(p).0 != "" {
      GrowsKeepsLookup(t, t2, cwd, Split(p).0);
    }
  }

  /** Changing modes only changes nothing about which paths are found, nor their kinds. */
  lemma {:induction false} SameKindsSameLookup(t: Tree, t2: Tree, cwd: seq<string>, p: string)
    requires t2.Keys == t.Keys && forall k :: k in t ==> t2[k].kind == t[k].kind
    ensures Lookup(t2, cwd, p).Some? == Lookup(t, cwd, p).Some?
    ensures Lookup(t, cwd, p).Some? ==> Lookup(t2, cwd, p).value.kind == Lookup(t, cwd, p).value.kind
    decreases |p|
  {
    if p != "" && !AllSlashes(p) && Split(p).0 != "" {
      SameKindsSameLookup(t, t2, cwd, Split(p).0);
    }
  }

  lemma GrowsTransitive(t: Tree, t2: Tree, t3: Tree)
    requires Grows(t, t2) && Grows(t2, t3)
    ensures Grows(t, t3)
  {
  }

  lemma AllSlashesIsDir(t: Tree, cwd: seq<string>, p: string)
    requires WellFormed(t)
    ensures p != "" && AllSlashes(p) ==> IsDir(t, cwd, p)
  {
  }

  /**
   * The errno with which the system refuses `p` where a directory is needed
   * and `p` does not name one: ENOTDIR when `p` or a directory part of it is
   * a file, ENOENT when something is missing.
   */
  function NotDirErrno(t: Tree, cwd: seq<string>, p: string): (e: int)
    ensures e == ENOENT || e == ENOTDIR
    ensures IsFile(t, cwd, p) ==> e == ENOTDIR
    ensures p != "" && !AllSlashes(p) && Split(p).0 != "" && IsFile(t, cwd, Split(p).0) ==> e == ENOTDIR
    ensures e == ENOENT && !IsDir(t, cwd, p) ==> !Exists(t, cwd, p)
    decreases |p|
  {
    if p == "" || AllSlashes(p) then ENOENT
    else
      var head := Split(p).0;
      if head != "" && !IsDir(t, cwd, head) then NotDirErrno(t, cwd, head)
      else if Walk(cwd, p) in t && t[Walk(cwd, p)].kind == File then ENOTDIR
      else ENOENT
  }

  // ---------------------------------------------------------------- os.mkdir

  /** A new directory whose parent is a directory keeps the tree well formed, and the tree only grows. */
  lemma AddDirWellFormed(t: Tree, k: seq<string>, n: Node)
    requires WellFormed(t) && k != [] && k !in t && IsDirKey(t, Parent(k)) && n.kind == Dir
    ensures WellFormed(t[k := n]) && Grows(t, t[k := n])
  {
    var t2 := t[k := n];
    forall j | j in t2 && j != [] ensures IsDirKey(t2, Parent(j)) {
      if j != k {
        assert IsDirKey(t, Parent(j));
      }
    }
  }

  datatype MkdirOutcome = Created(tree: Tree) | Failed(errno: int)

  predicate OwnerWritable(n: Node) { n.mode & S_IWUSR != 0 }

  /** The key of a path whose head is empty or a directory is a directory key or its tail applied to one. */
  lemma HeadDirKey(t: Tree, cwd: seq<string>, p: string)
    requires IsDirKey(t, cwd) && p != "" && !AllSlashes(p)
    requires Split(p).0 == "" || IsDir(t, cwd, Split(p).0)
    ensures IsDirKey(t, Walk(cwd, Split(p).0))
    ensures Walk(cwd, p) == Step(Walk(cwd, Split(p).0), Split(p).1)
  {
  }

  /** A path with a tail, whose head is empty or a directory, exists as soon as its key is in the tree. */
  lemma EntryFound(t: Tree, cwd: seq<string>, p: string)
    requires WellFormed(t) && IsDirKey(t, cwd) && p != "" && !AllSlashes(p) && Split(p).1 != ""
    requires Split(p).0 == "" || IsDir(t, cwd, Split(p).0)
    requires Walk(cwd, p) in t
    ensures Exists(t, cwd, p)
  {
    var tail := Split(p).1;
    HeadDirKey(t, cwd, p);
    if tail == "." || tail == ".." {
      StepDotIsDir(t, Walk(cwd, Split(p).0), tail);
    } else {
      NamedEntryNotMustBeDir(p);
    }
    LookupEntry(t, cwd, p);
  }

  /** A missing entry with a tail, whose head is empty or a directory, is a plain name in that directory. */
  lemma NewEntrySlot(t: Tree, cwd: seq<string>, p: string)
    requires WellFormed(t) && IsDirKey(t, cwd) && p != "" && !AllSlashes(p) && Split(p).1 != ""
    requires Split(p).0 == "" || IsDir(t, cwd, Split(p).0)
    requires Walk(cwd, p) !in t
    ensures Walk(cwd, p) != [] && Parent(Walk(cwd, p)) == Walk(cwd, Split(p).0)
    ensures IsDirKey(t, Parent(Walk(cwd, p)))
  {
    var dir, tail := Walk(cwd, Split(p).0), Split(p).1;
    HeadDirKey(t, cwd, p);
    if tail == ".." && dir != [] {
      ParentIsDir(t, dir);
    }
  }

  /** A path with a trailing slash is found exactly when its head is a directory, and then names that directory. */
  lemma TrailingSlash(t: Tree, cwd: seq<string>, p: string)
    requires p != "" && !AllSlashes(p) && Split(p).1 == ""
    ensures var head := Split(p).0;
      && head != "" && |head| < |p| && Split(head).1 != ""
      && Walk(cwd, p) == Walk(cwd, head)
      && Lookup(t, cwd, p) == if IsDir(t, cwd, head) then Lookup(t, cwd, head) else None
  {
    EmptyTail(p);
    WalkSplit(cwd, p);
  }

  /**
   * `os.mkdir(p)`, trailing slashes aside: EEXIST when something already
   * exists there, ENOENT or ENOTDIR when its directory part is missing or
   * runs through a file, EACCES when the directory it goes in is not
   * writable, and otherwise a new directory with mode 0o777 less the umask.
   */
  function Mkdir(t: Tree, cwd: seq<string>, umask: bv16, p: string): (o: MkdirOutcome)
    requires WellFormed(t) && IsDirKey(t, cwd)
    ensures o.Created? ==> p != "" && Walk(cwd, p) !in t && WellFormed(o.tree) && Grows(t, o.tree)
    ensures o.Created? ==> o.tree == t[Walk(cwd, p) := Node(Dir, MKDIR_MODE & !umask)]
    ensures (o == Failed(EEXIST)) <==> Exists(t, cwd, p) || (Split(p).1 == "" && IsFile(t, cwd, Split(p).0))
    decreases |p|
  {
    if p == "" then
      assert Split(p) == ("", "");
      Failed(ENOENT)
    else if AllSlashes(p) then Failed(EEXIST)
    else
      var head, tail := Split(p).0, Split(p).1;
      if tail == "" then
        TrailingSlash(t, cwd, p);
        Mkdir(t, cwd, umask, head)
      else if head != "" && !IsDir(t, cwd, head) then Failed(NotDirErrno(t, cwd, head))
      else
        var k := Walk(cwd, p);
        if k in t then
          EntryFound(t, cwd, p);
          Failed(EEXIST)
        else
          NewEntrySlot(t, cwd, p);
          if !OwnerWritable(t[Parent(k)]) then Failed(EACCES)
          else
            var t2 := t[k := Node(Dir, MKDIR_MODE & !umask)];
            AddDirWellFormed(t, k, t2[k]);
            Created(t2)
  }

  /** After `os.mkdir(p)` succeeds, `p` names a directory. */
  lemma {:induction false} MkdirMakesDir(t: Tree, cwd: seq<string>, umask: bv16, p: string)
    requires WellFormed(t) && IsDirKey(t, cwd)
    ensures Mkdir(t, cwd, umask, p).Created? ==> IsDir(Mkdir(t, cwd, umask, p).tree, cwd, p)
    decreases |p|
  {
    var o := Mkdir(t, cwd, umask, p);
    if o.Created? {
      var head, tail := Split(p).0, Split(p).1;
      if tail == "" {
        TrailingSlash(t, cwd, p);
        MkdirMakesDir(t, cwd, umask, head);
        TrailingSlash(o.tree, cwd, p);
      } else {
        if head != "" {
          GrowsKeepsLookup(t, o.tree, cwd, head);
        }
        LookupEntry(o.tree, cwd, p);
      }
    }
  }

  // ---------------------------------------------------------------- mkdir_p

  datatype Failure = PathConflict | Errno(code: int)
  datatype Result = Ok | Err(failure: Failure)

  /**
   * The last step of `mkdir_p(p)`, once the head is a directory: nothing for
   * an empty tail, and otherwise `os.mkdir(p)`. An EEXIST from it counts as
   * success; with `recheck` (the corrected code, see `MkdirPlan`) only when
   * `p` then names a directory. Every other errno is raised.
   */
  function MkdirLast(t: Tree, cwd: seq<string>, umask: bv16, recheck: bool, p: string): (r: (Tree, Result))
    requires WellFormed(t) && IsDirKey(t, cwd)
    ensures WellFormed(r.0) && Grows(t, r.0)
    ensures r.1 != Err(PathConflict)
    ensures !recheck ==> r.1 != Err(Errno(EEXIST))
    ensures Split(p).1 != "" && Mkdir(t, cwd, umask, p).Failed? && Mkdir(t, cwd, umask, p).errno != EEXIST ==>
      r == (t, Err(Errno(Mkdir(t, cwd, umask, p).errno)))
  {
    if Split(p).1 == "" then (t, Ok)
    else match Mkdir(t, cwd, umask, p)
      case Created(t2) => (t2, Ok)
      case Failed(e) => if e == EEXIST && (!recheck || IsDir(t, cwd, p)) then (t, Ok) else (t, Err(Errno(e)))
  }

  /**
   * What `mkdir_p(p)` does to the tree and how it ends: nothing for an
   * existing directory, an error for a file in the way, and otherwise the
   * head made first (when it is not a directory) and then the last step.
   * With `recheck` false this is the code as written; with `recheck` true it
   * is the corrected code, which raises a swallowed EEXIST again when `p` is
   * not a directory afterwards (see `MkdirPAcceptsFileBehindDotDot`).
   */
  function MkdirPlan(t: Tree, cwd: seq<string>, umask: bv16, recheck: bool, p: string): (r: (Tree, Result))
    requires WellFormed(t) && IsDirKey(t, cwd)
    ensures WellFormed(r.0) && Grows(t, r.0)
    decreases |p|
  {
    if IsDir(t, cwd, p) then (t, Ok)
    else if IsFile(t, cwd, p) then (t, Err(PathConflict))
    else
      var head := Split(p).0;
      AllSlashesIsDir(t, cwd, p);
      var first := if head != "" && !IsDir(t, cwd, head) then MkdirPlan(t, cwd, umask, recheck, head) else (t, Ok);
      if first.1.Err? then first
      else
        var r := MkdirLast(first.0, cwd, umask, recheck, p);
        GrowsTransitive(t, first.0, r.0);
        r
  }

  /** The paths that `mkdir_p(p)` is called on, `p` first, then down the recursion on the heads. */
  ghost function Visited(t: Tree, cwd: seq<string>, p: string): (v: seq<string>)
    requires WellFormed(t)
    ensures |v| >= 1 && v[0] == p
    decreases |p|
  {
    if IsDir(t, cwd, p) || IsFile(t, cwd, p) then [p]
    else
      var head := Split(p).0;
      AllSlashesIsDir(t, cwd, p);
      [p] + (if head != "" && !IsDir(t, cwd, head) then Visited(t, cwd, head) else [])
  }

  lemma WalkSplit(cwd: seq<string>, p: string)
    requires p != "" && !AllSlashes(p)
    ensures Walk(cwd, p) == Step(Walk(cwd, Split(p).0), Split(p).1)
  {
  }

  /** Stepping from a directory by "." or ".." lands on a directory. */
  lemma StepDotIsDir(t: Tree, dir: seq<string>, name: string)
    requires WellFormed(t) && IsDirKey(t, dir) && (name == "." || name == "..")
    ensures IsDirKey(t, Step(dir, name))
  {
    if name == ".." && dir != [] {
      ParentIsDir(t, dir);
    }
  }

  /** After a successful corrected `mkdir_p(p)` with a non-empty `p`, `p` names a directory. */
  lemma {:induction false} MkdirPMakesPath(t: Tree, cwd: seq<string>, umask: bv16, p: string)
    requires WellFormed(t) && IsDirKey(t, cwd)
    ensures var r := MkdirPlan(t, cwd, umask, true, p);
      r.1 == Ok && p != "" ==> IsDir(r.0, cwd, p)
    decreases |p|
  {
    var r := MkdirPlan(t, cwd, umask, true, p);
    if r.1 == Ok && p != "" && !IsDir(t, cwd, p) && !IsFile(t, cwd, p) {
      var head, tail := Split(p).0, Split(p).1;
      AllSlashesIsDir(t, cwd, p);
      var recurse := head != "" && !IsDir(t, cwd, head);
      var first := if recurse then MkdirPlan(t, cwd, umask, true, head) else (t, Ok);
      var t1 := first.0;
      assert r == MkdirLast(t1, cwd, umask, true, p);
      if recurse {
        MkdirPMakesPath(t, cwd, umask, head);
      } else if head != "" {
        GrowsKeepsLookup(t, t1, cwd, head);
      }
      if tail == "" {
        TrailingSlash(t1, cwd, p);
      } else {
        MkdirMakesDir(t1, cwd, umask, p);
      }
    }
  }

  /**
   * After a successful corrected `mkdir_p`, the path and every head the
   * recursion reached are directories.
   */
  lemma {:induction false} MkdirPMakesDirs(t: Tree, cwd: seq<string>, umask: bv16, p: string)
    requires WellFormed(t) && IsDirKey(t, cwd)
    ensures var r := MkdirPlan(t, cwd, umask, true, p);
      r.1 == Ok ==> forall a :: a in Visited(t, cwd, p) && a != "" ==> IsDir(r.0, cwd, a)
    decreases |p|
  {
    var r := MkdirPlan(t, cwd, umask, true, p);
    MkdirPMakesPath(t, cwd, umask, p);
    if r.1 == Ok && !IsDir(t, cwd, p) && !IsFile(t, cwd, p) {
      var head := Split(p).0;
      AllSlashesIsDir(t, cwd, p);
      if head != "" && !IsDir(t, cwd, head) {
        var first := MkdirPlan(t, cwd, umask, true, head);
        assert first.1 == Ok && r == MkdirLast(first.0, cwd, umask, true, p);
        assert Visited(t, cwd, p) == [p] + Visited(t, cwd, head);
        MkdirPMakesDirs(t, cwd, umask, head);
        forall a | a in Visited(t, cwd, head) && a != ""
          ensures IsDir(r.0, cwd, a)
        {
          GrowsKeepsLookup(first.0, r.0, cwd, a);
        }
      }
    }
  }

  /** `mkdir_p` fails when a regular file occupies the path or any head the recursion reaches. */
  lemma {:induction false} MkdirPFileInTheWay(t: Tree, cwd: seq<string>, umask: bv16, recheck: bool, p: string, a: string)
    requires WellFormed(t) && IsDirKey(t, cwd)
    requires a in Visited(t, cwd, p) && IsFile(t, cwd, a)
    ensures MkdirPlan(t, cwd, umask, recheck, p).1.Err?
    decreases |p|
  {
    if a != p {
      var head := Split(p).0;
      AllSlashesIsDir(t, cwd, p);
      assert Visited(t, cwd, p) == [p] + Visited(t, cwd, head);
      MkdirPFileInTheWay(t, cwd, umask, recheck, head, a);
    }
  }

  /** As written, an EEXIST from `os.mkdir` never escapes `mkdir_p`, at any depth of the recursion. */
  lemma {:induction false} MkdirPSwallowsEexist(t: Tree, cwd: seq<string>, umask: bv16, p: string)
    requires WellFormed(t) && IsDirKey(t, cwd)
    ensures MkdirPlan(t, cwd, umask, false, p).1 != Err(Errno(EEXIST))
    decreases |p|
  {
    if !IsDir(t, cwd, p) && !IsFile(t, cwd, p) {
      var head := Split(p).0;
      AllSlashesIsDir(t, cwd, p);
      if head != "" && !IsDir(t, cwd, head) {
        MkdirPSwallowsEexist(t, cwd, umask, head);
      }
    }
  }

  /** Once the head is a directory, any errno but EEXIST from `os.mkdir(p)` is what `mkdir_p(p)` raises, and nothing changes. */
  lemma MkdirPPropagatesErrno(t: Tree, cwd: seq<string>, umask: bv16, recheck: bool, p: string)
    requires WellFormed(t) && IsDirKey(t, cwd)
    requires Split(p).1 != "" && (Split(p).0 == "" || IsDir(t, cwd, Split(p).0))
    requires Mkdir(t, cwd, umask, p).Failed? && Mkdir(t, cwd, umask, p).errno != EEXIST
    ensures MkdirPlan(t, cwd, umask, recheck, p) == (t, Err(Errno(Mkdir(t, cwd, umask, p).errno)))
  {
    AllSlashesIsDir(t, cwd, p);
  }

  lemma MkdirPEmpty(t: Tree, cwd: seq<string>, umask: bv16, recheck: bool)
    requires WellFormed(t) && IsDirKey(t, cwd)
    ensures MkdirPlan(t, cwd, umask, recheck, "") == (t, Ok)
  {
    assert Split("") == ("", "");
  }

  lemma MkdirPExisting(t: Tree, cwd: seq<string>, umask: bv16, recheck: bool, p: string)
    requires WellFormed(t) && IsDirKey(t, cwd) && IsDir(t, cwd, p)
    ensures MkdirPlan(t, cwd, umask, recheck, p) == (t, Ok)
  {
  }

  /** A second corrected `mkdir_p` of the same path after a successful one changes nothing. */
  lemma MkdirPIdempotent(t: Tree, cwd: seq<string>, umask: bv16, p: string)
    requires WellFormed(t) && IsDirKey(t, cwd)
    requires MkdirPlan(t, cwd, umask, true, p).1 == Ok
    ensures var t2 := MkdirPlan(t, cwd, umask, true, p).0;
      MkdirPlan(t2, cwd, umask, true, p) == (t2, Ok)
  {
    var t2 := MkdirPlan(t, cwd, umask, true, p).0;
    if p == "" {
      MkdirPEmpty(t, cwd, umask, true);
      MkdirPEmpty(t2, cwd, umask, true);
    } else {
      MkdirPMakesPath(t, cwd, umask, p);
      MkdirPExisting(t2, cwd, umask, true, p);
    }
  }

  /** With "x" missing nothing of "x/../f" is found. */
  lemma DotDotMissing(t: Tree)
    requires ["x"] !in t
    ensures !Exists(t, [], "x") && !Exists(t, [], "x/..") && !Exists(t, [], "x/../f")
  {
    DotDotParts();
    assert Lookup(t, [], "x") == None;
    assert Lookup(t, [], "x/..") == None;
  }

  /** Once "x" is a directory, "x/.." is the root and "x/../f" the entry "f". */
  lemma DotDotFound(t1: Tree)
    requires IsDirKey(t1, []) && IsDirKey(t1, ["x"]) && ["f"] in t1
    ensures IsDir(t1, [], "x") && IsDir(t1, [], "x/..") && Lookup(t1, [], "x/../f") == Some(t1[["f"]])
  {
    DotDotParts();
    LookupEntry(t1, [], "x");
    LookupEntry(t1, [], "x/..");
    LookupEntry(t1, [], "x/../f");
  }

  /** Both versions of `mkdir_p("x/..")` create "x" and succeed. */
  lemma DotDotHeadPlan(t: Tree, t1: Tree, recheck: bool)
    requires t == map[[] := Node(Dir, MKDIR_MODE), ["f"] := Node(File, 0x1A4)]
    requires t1 == t[["x"] := Node(Dir, MKDIR_MODE)]
    ensures MkdirPlan(t, [], 0, recheck, "x/..") == (t1, Ok)
  {
    DotDotParts();
    DotDotMissing(t);
    DotDotFound(t1);
    MissingXPlan(t, t1, recheck);
    assert Mkdir(t1, [], 0, "x/..") == Failed(EEXIST);
  }

  /** `mkdir_p("x")` with "x" missing creates it. */
  lemma MissingXPlan(t: Tree, t1: Tree, recheck: bool)
    requires t == map[[] := Node(Dir, MKDIR_MODE), ["f"] := Node(File, 0x1A4)]
    requires t1 == t[["x"] := Node(Dir, MKDIR_MODE)]
    ensures MkdirPlan(t, [], 0, recheck, "x") == (t1, Ok)
  {
    DotDotParts();
    DotDotMissing(t);
    assert Mkdir(t, [], 0, "x") == Created(t1);
  }

  /**
   * With `x` a regular file, `mkdir_p("x/../f")` cannot stat through `x`, so
   * the recursion reaches `mkdir_p("x")`, which raises the path conflict.
   */
  lemma MkdirPFileBeforeDotDot(recheck: bool)
    ensures var t := map[[] := Node(Dir, MKDIR_MODE), ["x"] := Node(File, 0x1A4)];
      MkdirPlan(t, [], 0, recheck, "x/../f") == (t, Err(PathConflict))
  {
    var t := map[[] := Node(Dir, MKDIR_MODE), ["x"] := Node(File, 0x1A4)];
    DotDotParts();
    LookupEntry(t, [], "x");
    assert Lookup(t, [], "x/..") == None;
    assert Lookup(t, [], "x/../f") == None;
    assert MkdirPlan(t, [], 0, recheck, "x/..") == (t, Err(PathConflict));
  }

  /**
   * As written, `mkdir_p("x/../f")`, with `x` missing and `f` a regular file
   * in the working directory, creates `x` and returns normally although a
   * file is in the way: `isfile` cannot see `f` through the missing `x`, and
   * the EEXIST that `os.mkdir("x/../f")` then raises is swallowed. A second
   * call raises. The corrected code raises that EEXIST the first time.
   */
  lemma MkdirPAcceptsFileBehindDotDot()
    ensures var t := map[[] := Node(Dir, MKDIR_MODE), ["f"] := Node(File, 0x1A4)];
      var r := MkdirPlan(t, [], 0, false, "x/../f");
      && r == (t[["x"] := Node(Dir, MKDIR_MODE)], Ok)
      && IsFile(r.0, [], "x/../f")
      && MkdirPlan(r.0, [], 0, false, "x/../f").1 == Err(PathConflict)
      && MkdirPlan(t, [], 0, true, "x/../f").1 == Err(Errno(EEXIST))
  {
    var t := map[[] := Node(Dir, MKDIR_MODE), ["f"] := Node(File, 0x1A4)];
    var t1 := t[["x"] := Node(Dir, MKDIR_MODE)];
    DotDotFound(t1);
    DotDotPlan(t, t1, false);
    DotDotPlan(t, t1, true);
  }

  /** `mkdir_p("x/../f")` creates "x"; as written it then succeeds, corrected it raises EEXIST. */
  lemma DotDotPlan(t: Tree, t1: Tree, recheck: bool)
    requires t == map[[] := Node(Dir, MKDIR_MODE), ["f"] := Node(File, 0x1A4)]
    requires t1 == t[["x"] := Node(Dir, MKDIR_MODE)]
    ensures MkdirPlan(t, [], 0, recheck, "x/../f") == (t1, if recheck then Err(Errno(EEXIST)) else Ok)
  {
    DotDotParts();
    DotDotMissing(t);
    DotDotFound(t1);
    DotDotHeadPlan(t, t1, recheck);
    assert Mkdir(t1, [], 0, "x/../f") == Failed(EEXIST);
  }

  // ---------------------------------------------------------------- modes

  const OWNER_READ_WRITE: bv16 := S_IWRITE | S_IWUSR | S_IRUSR

  /** The tree after `set_write_bit(p)`: a missing path is skipped, an existing one gets mode 0o600. */
  function WithWriteBit(t: Tree, cwd: seq<string>, p: string): (t2: Tree)
    ensures t2.Keys == t.Keys
    ensures !Exists(t, cwd, p) ==> t2 == t
    ensures Exists(t, cwd, p) ==> var k := Walk(cwd, p);
      t2[k] == Node(t[k].kind, 0x180) && forall j :: j in t && j != k ==> t2[j] == t[j]
  {
    if !Exists(t, cwd, p) then t
    else
      var k := Walk(cwd, p);
      t[k := t[k].(mode := OWNER_READ_WRITE)]
  }

  lemma WithWriteBitWellFormed(t: Tree, cwd: seq<string>, p: string)
    requires WellFormed(t)
    ensures WellFormed(WithWriteBit(t, cwd, p))
  {
    var t2 := WithWriteBit(t, cwd, p);
    forall j | j in t2 && j != [] ensures IsDirKey(t2, Parent(j)) {
      assert IsDirKey(t, Parent(j));
    }
  }

  /** `os.access(p, os.W_OK)` for the owner of the entry. */
  predicate Writable(n: Node) { n.mode & S_IWUSR != 0 }

  /**
   * `is_readonly_path(p)`: false for a missing path; otherwise true when the
   * owner-read bit is set or the entry is not writable.
   */
  function IsReadonlyPath(t: Tree, cwd: seq<string>, p: string): (b: bool)
    ensures !Exists(t, cwd, p) ==> !b
    ensures Exists(t, cwd, p) ==>
      (b <==> (Lookup(t, cwd, p).value.mode & S_IREAD != 0 || !Writable(Lookup(t, cwd, p).value)))
  {
    match Lookup(t, cwd, p)
    case None => false
    case Some(n) => n.mode & S_IREAD != 0 || !Writable(n)
  }

  /** Because the check tests the read bit, `set_write_bit` leaves every existing path read-only. */
  lemma StillReadonlyAfterSetWriteBit(t: Tree, cwd: seq<string>, p: string)
    requires Exists(t, cwd, p)
    ensures IsReadonlyPath(WithWriteBit(t, cwd, p), cwd, p)
  {
    var t2 := WithWriteBit(t, cwd, p);
    SameKindsSameLookup(t, t2, cwd, p);
  }

  /** An owner-writable entry without the owner-read bit is the only kind is_readonly_path calls writable. */
  lemma NotReadonlyMeansWriteOnly(t: Tree, cwd: seq<string>, p: string)
    requires Exists(t, cwd, p) && !IsReadonlyPath(t, cwd, p)
    ensures Lookup(t, cwd, p).value.mode & S_IRUSR == 0 && Writable(Lookup(t, cwd, p).value)
  {
  }

  /**
   * A ".." behind a regular file names nothing: `os.path.exists` is false,
   * `set_write_bit` and `is_readonly_path` see no entry, and `os.chdir`
   * fails with ENOTDIR.
   */
  lemma DotDotBehindFile(t: Tree)
    requires IsDirKey(t, []) && ["x"] in t && t[["x"]].kind == File
    ensures !Exists(t, [], "x/..") && NotDirErrno(t, [], "x/..") == ENOTDIR
    ensures WithWriteBit(t, [], "x/..") == t && !IsReadonlyPath(t, [], "x/..")
  {
    DotDotParts();
    LookupEntry(t, [], "x");
    assert Lookup(t, [], "x/..") == None;
  }

  // ---------------------------------------------------------------- rmtree's error handler

  datatype HandlerOutcome = Warned | Reraised(errno: int)

  predicate IsPermissionError(errno: int) { errno == EACCES || errno == EPERM }

  /**
   * The decision of `handle_remove_readonly`: a warning when the path was
   * read-only and the retry failed with a permission error, or when the
   * original error was a permission error; otherwise the original error is
   * raised again, also when the retry succeeded. `retry` is the outcome of
   * calling the failed function again (`None`: it succeeded).
   */
  function RemoveReadonlyDecision(readonly: bool, retry: Option<int>, original: int): (o: HandlerOutcome)
    ensures o == Warned <==>
      (readonly && retry.Some? && IsPermissionError(retry.value)) || IsPermissionError(original)
    ensures o != Warned ==> o == Reraised(original)
  {
    if readonly && retry.Some? && IsPermissionError(retry.value) then Warned
    else if IsPermissionError(original) then Warned
    else Reraised(original)
  }

  /** A retry that succeeds does not stop a non-permission error from being raised again. */
  lemma RetrySuccessStillReraises(original: int)
    requires !IsPermissionError(original)
    ensures RemoveReadonlyDecision(true, None, original) == Reraised(original)
  {
  }

  /** The handler never returns an error other than the one it was given. */
  lemma DecisionKeepsOriginal(readonly: bool, retry: Option<int>, original: int)
    ensures RemoveReadonlyDecision(readonly, retry, original) in {Warned, Reraised(original)}
  {
  }

  // ---------------------------------------------------------------- chdir

  datatype ChdirFailure = DidNotYield | ChdirErrno(errno: int)

  /**
   * A process's filesystem and working directory. `saved` holds the
   * directories that the active `chdir` blocks restore when they end,
   * the innermost last.
   */
  class FileSystem {
    var tree: Tree
    var cwd: seq<string>
    var saved: seq<seq<string>>
    const umask: bv16

    ghost predicate Valid()
      reads this
    {
      WellFormed(tree) && IsDirKey(tree, cwd) && forall d :: d in saved ==> IsDirKey(tree, d)
    }

    constructor (tree0: Tree, cwd0: seq<string>, umask0: bv16)
      requires WellFormed(tree0) && IsDirKey(tree0, cwd0)
      ensures Valid()
      ensures tree == tree0 && cwd == cwd0 && saved == [] && umask == umask0
    {
      tree, cwd, saved, umask := tree0, cwd0, [], umask0;
    }

    /** `os.mkdir(p)`; `None` when it made the directory. */
    method OsMkdir(p: string) returns (errno: Option<int>)
      requires Valid()
      modifies this
      ensures Valid() && cwd == old(cwd) && saved == old(saved)
      ensures match Mkdir(old(tree), cwd, umask, p)
        case Created(t2) => errno == None && tree == t2
        case Failed(e) => errno == Some(e) && tree == old(tree)
    {
      match Mkdir(tree, cwd, umask, p)
      case Created(t2) =>
        tree, errno := t2, None;
      case Failed(e) =>
        errno := Some(e);
    }

    /** `mkdir_p(newdir)` */
    method MkdirP(newdir: string) returns (r: Result)
      requires Valid()
      modifies this
      ensures Valid() && cwd == old(cwd) && saved == old(saved)
      ensures (tree, r) == MkdirPlan(old(tree), cwd, umask, false, newdir)
      decreases |newdir|
    {
      if IsDir(tree, cwd, newdir) {
        return Ok;
      } else if IsFile(tree, cwd, newdir) {
        return Err(PathConflict);
      }
      var split := Split(newdir);
      var head, tail := split.0, split.1;
      AllSlashesIsDir(tree, cwd, newdir);
      if head != "" && !IsDir(tree, cwd, head) {
        r := MkdirP(head);
        if r.Err? {
          return;
        }
      }
      if tail != "" {
        var errno := OsMkdir(newdir);
        if errno.Some? && errno.value != EEXIST {
          return Err(Errno(errno.value));
        }
      }
      return Ok;
    }

    /** `set_write_bit(file_name)` */
    method SetWriteBit(fileName: string)
      requires Valid()
      modifies this
      ensures Valid() && cwd == old(cwd) && saved == old(saved)
      ensures tree == WithWriteBit(old(tree), cwd, fileName)
    {
      WithWriteBitWellFormed(tree, cwd, fileName);
      tree := WithWriteBit(tree, cwd, fileName);
    }

    /**
     * `handle_remove_readonly(func, path, exc)` with `original` the errno of
     * `exc` and `retry` the outcome of calling `func(path)` again.
     */
    method HandleRemoveReadonly(path: string, original: int, retry: Option<int>) returns (o: HandlerOutcome)
      requires Valid()
      modifies this
      ensures Valid() && cwd == old(cwd) && saved == old(saved)
      ensures o == RemoveReadonlyDecision(IsReadonlyPath(old(tree), cwd, path), retry, original)
      ensures tree == if IsReadonlyPath(old(tree), cwd, path) then WithWriteBit(old(tree), cwd, path) else old(tree)
    {
      if IsReadonlyPath(tree, cwd, path) {
        SetWriteBit(path);
        if retry.Some? && IsPermissionError(retry.value) {
          return Warned;
        }
      }
      if IsPermissionError(original) {
        return Warned;
      }
      return Reraised(original);
    }

    /**
     * Entering `with chdir(path):`. An empty path ends the generator before
     * it yields, which `contextmanager` reports as an error; a path that is
     * not a directory makes `os.chdir` fail; otherwise the working directory
     * is saved and changed.
     */
    method ChdirEnter(path: string) returns (failure: Option<ChdirFailure>)
      requires Valid()
      modifies this
      ensures Valid() && tree == old(tree)
      ensures path == "" ==> failure == Some(DidNotYield) && cwd == old(cwd) && saved == old(saved)
      ensures path != "" && !IsDir(tree, old(cwd), path) ==>
        failure == Some(ChdirErrno(NotDirErrno(tree, old(cwd), path))) && cwd == old(cwd) && saved == old(saved)
      ensures path != "" && IsDir(tree, old(cwd), path) ==>
        failure == None && cwd == Walk(old(cwd), path) && saved == old(saved) + [old(cwd)]
    {
      if path == "" {
        return Some(DidNotYield);
      }
      if !IsDir(tree, cwd, path) {
        return Some(ChdirErrno(NotDirErrno(tree, cwd, path)));
      }
      saved := saved + [cwd];
      cwd := Walk(cwd, path);
      failure := None;
    }

    /** Leaving the `with chdir(path):` block, normally or by an exception: the `finally` clause. */
    method ChdirExit()
      requires Valid() && |saved| > 0
      modifies this
      ensures Valid() && tree == old(tree)
      ensures cwd == old(saved)[|old(saved)| - 1] && saved == old(saved)[..|old(saved)| - 1]
    {
      cwd := saved[|saved| - 1];
      saved := saved[..|saved| - 1];
    }

    /**
     * `with chdir(outer): with chdir(inner): ...`: the inner block sees the
     * directory `inner` names from `outer`, the code after it is back in
     * `outer`, and after both blocks the original directory is restored.
     */
    method NestedScopes(outer: string, inner: string) returns (insideInner: seq<string>, afterInner: seq<string>)
      requires Valid()
      modifies this
      ensures Valid() && tree == old(tree) && cwd == old(cwd) && saved == old(saved)
      ensures outer != "" && IsDir(tree, old(cwd), outer) && inner != "" && IsDir(tree, Walk(old(cwd), outer), inner) ==>
        afterInner == Walk(old(cwd), outer) && insideInner == Walk(Walk(old(cwd), outer), inner)
    {
      insideInner, afterInner := cwd, cwd;
      var f1 := ChdirEnter(outer);
      if f1.None? {
        var f2 := ChdirEnter(inner);
        if f2.None? {
          insideInner := cwd;
          ChdirExit();
        }
        afterInner := cwd;
        ChdirExit();
      }
    }
  }
}
