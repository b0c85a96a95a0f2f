/**
 * POSIX path handling as Python's `posixpath` does it: `os.path.split`,
 * `os.path.join` (two arguments), `os.path.expanduser` for the current
 * user, and the lexical walk from a working directory to the component
 * list a path names.
 */
module Paths {
  import opened Text

  predicate IsSlash(c: char) { c == '/' }

  predicate AllSlashes(s: string) { forall k :: 0 <= k < |s| ==> s[k] == '/' }

  /** Python's `p.rfind('/') + 1`: the index just past the last slash, 0 when there is none. */
  function AfterLastSlash(p: string): (i: nat)
    ensures i <= |p|
    ensures i > 0 ==> p[i - 1] == '/'
    ensures forall k :: i <= k < |p| ==> p[k] != '/'
  {
    if p == [] then 0 else if p[|p| - 1] == '/' then |p| else AfterLastSlash(p[..|p| - 1])
  }

  /** Python's `s.rstrip('/')`. */
  function RStripSlashes(s: string): string {
    s[..|s| - TrailCount(s, IsSlash)]
  }

  /**
   * `os.path.split(p)`: the tail is everything after the last slash, the
   * head everything before it with trailing slashes removed, unless the
   * head consists of slashes only.
   */
  function Split(p: string): (r: (string, string))
    ensures |r.0| + |r.1| <= |p|
    ensures p != "" && !AllSlashes(p) ==> |r.0| < |p|
  {
    var i := AfterLastSlash(p);
    var head := p[..i];
    var tail := p[i..];
    if head == "" || AllSlashes(head) then
      (head, tail)
    else
      RStripFacts(head);
      (RStripSlashes(head), tail)
  }

  /**
   * What `os.path.split` promises: the head is a prefix and the tail a
   * suffix without slashes, only slashes lie between them, the head keeps
   * no trailing slash unless it is all slashes, and without a head the
   * tail is the whole path.
   */
  lemma SplitFacts(p: string)
    ensures var (head, tail) := Split(p);
      && p[..|head|] == head && p[|p| - |tail|..] == tail
      && AllSlashes(p[|head|..|p| - |tail|])
      && '/' !in tail
      && (head != "" && !AllSlashes(head) ==> head[|head| - 1] != '/')
      && (head == "" ==> tail == p)
  {
    var i := AfterLastSlash(p);
    TailAfterLastSlash(p);
    if p[..i] != "" && !AllSlashes(p[..i]) {
      StrippedHead(p, i);
    }
  }

  /** What follows the last slash holds no slash. */
  lemma TailAfterLastSlash(p: string)
    ensures '/' !in p[AfterLastSlash(p)..]
  {
    var i := AfterLastSlash(p);
    assert forall k :: 0 <= k < |p| - i ==> p[i..][k] == p[i + k];
  }

  /** The head `split` keeps of a prefix with a component: a prefix of `p`, followed by slashes up to `i`. */
  lemma StrippedHead(p: string, i: nat)
    requires i <= |p| && p[..i] != "" && !AllSlashes(p[..i])
    ensures var h := RStripSlashes(p[..i]);
      h != "" && |h| <= i && p[..|h|] == h && AllSlashes(p[|h|..i]) && h[|h| - 1] != '/'
  {
    var head := p[..i];
    var h := RStripSlashes(head);
    RStripFacts(head);
    assert p[..|h|] == head[..|h|];
    assert p[|h|..i] == head[|h|..];
  }

  /** What `rstrip('/')` keeps of a text that is not all slashes: a non-empty prefix, not ending in a slash, followed only by slashes. */
  lemma RStripFacts(s: string)
    requires s != "" && !AllSlashes(s)
    ensures var h := RStripSlashes(s);
      h != "" && |h| <= |s| && s[..|h|] == h && AllSlashes(s[|h|..]) && h[|h| - 1] != '/'
      && (s[|s| - 1] == '/' ==> |h| < |s|)
  {
    var n := TrailCount(s, IsSlash);
    var h := RStripSlashes(s);
    assert n < |s|;
    assert forall k :: 0 <= k < n ==> s[|h|..][k] == s[|h| + k];
  }

  /** `os.path.join(head, tail)` for a tail without slashes. */
  function Join(a: string, b: string): string {
    if StartsWith(b, "/") then b
    else if a == "" || a[|a| - 1] == '/' then a + b
    else a + "/" + b
  }

  /** Joining a head without a trailing slash to a tail that does not start with one puts one slash between them. */
  lemma JoinSlash(head: string, tail: string)
    requires head != "" && head[|head| - 1] != '/' && tail != "" && tail[0] != '/'
    ensures Join(head, tail) == head + "/" + tail
  {
  }

  lemma AfterLastSlashAppend(q: string, t: string)
    requires q == "" || q[|q| - 1] == '/'
    requires '/' !in t
    ensures AfterLastSlash(q + t) == |q|
  {
    var p := q + t;
    var i := AfterLastSlash(p);
    assert forall k :: |q| <= k < |p| ==> p[k] == t[k - |q|] && t[k - |q|] in t;
    if q != "" {
      assert p[|q| - 1] == '/';
    }
  }

  /** Splitting what was joined gives back the head and the tail. */
  lemma SplitJoin(head: string, tail: string)
    requires '/' !in tail
    requires head == "" || AllSlashes(head) || head[|head| - 1] != '/'
    ensures Split(Join(head, tail)) == (head, tail)
  {
    assert !StartsWith(tail, "/") by {
      if tail != "" { assert tail[0] in tail; }
    }
    if head == "" {
      AfterLastSlashAppend("", tail);
      assert Join(head, tail) == "" + tail;
    } else if AllSlashes(head) {
      AfterLastSlashAppend(head, tail);
      assert Join(head, tail) == head + tail;
      assert (head + tail)[..|head|] == head;
    } else {
      SplitJoinHead(head, tail);
    }
  }

  /** `SplitJoin` for a head with a component: the slash `join` puts in is the one `split` removes. */
  lemma SplitJoinHead(head: string, tail: string)
    requires '/' !in tail && !StartsWith(tail, "/")
    requires head != "" && !AllSlashes(head) && head[|head| - 1] != '/'
    ensures Split(Join(head, tail)) == (head, tail)
  {
    var q := head + "/";
    AfterLastSlashAppend(q, tail);
    assert Join(head, tail) == q + tail;
    assert (q + tail)[..|q|] == q && (q + tail)[|q|..] == tail;
    assert !AllSlashes(q) by {
      var k :| 0 <= k < |head| && head[k] != '/';
      assert q[k] == head[k];
    }
    assert TrailCount(q, IsSlash) == 1;
    assert q[..|q| - 1] == head;
    assert RStripSlashes(q) == head;
  }

  /** One component applied to a directory, lexically: "" and "." stay, ".." goes up. */
  function Step(dir: seq<string>, name: string): seq<string> {
    if name == "" || name == "." then dir
    else if name == ".." then (if dir == [] then [] else dir[..|dir| - 1])
    else dir + [name]
  }

  /**
   * The directory components that `p` names, relative to `cwd` unless it is
   * absolute, following `os.path.split` from the end. A ".." steps to the
   * parent of the components before it; that this is the parent the system
   * finds holds once those components name a directory, which
   * `Utils.Lookup` checks component by component.
   */
  function Walk(cwd: seq<string>, p: string): seq<string>
    decreases |p|
  {
    if p == "" then cwd
    else if AllSlashes(p) then []
    else
      var (head, tail) := Split(p);
      Step(Walk(cwd, head), tail)
  }

  /** Whether the system requires `p` to name a directory (a trailing slash, a final "." or ".."). */
  predicate MustBeDir(p: string) {
    p != "" && (p[|p| - 1] == '/' || Split(p).1 == "." || Split(p).1 == "..")
  }

  /** A path written as the join of a head and a slash-free tail splits into them. */
  lemma JoinedSplit(head: string, tail: string, p: string)
    requires '/' !in tail && (head == "" || head[|head| - 1] != '/')
    requires p == Join(head, tail)
    ensures Split(p) == (head, tail)
  {
    SplitJoin(head, tail);
  }

  lemma SplitX()
    ensures Split("x") == ("", "x")
  {
    JoinedSplit("", "x", "x");
  }

  lemma SplitXUp()
    ensures Split("x/..") == ("x", "..")
  {
    JoinSlash("x", "..");
    assert "x" + "/" + ".." == "x/..";
    JoinedSplit("x", "..", "x/..");
  }

  lemma SplitXUpF()
    ensures Split("x/../f") == ("x/..", "f")
  {
    JoinSlash("x/..", "f");
    assert "x/.." + "/" + "f" == "x/../f";
    JoinedSplit("x/..", "f", "x/../f");
  }

  lemma WalkX()
    ensures !AllSlashes("x") && Walk([], "x") == ["x"]
  {
    SplitX();
    assert "x"[0] != '/';
  }

  lemma WalkXUp()
    ensures !AllSlashes("x/..") && Walk([], "x/..") == []
  {
    WalkX();
    SplitXUp();
    assert "x/.."[0] != '/';
  }

  lemma WalkXUpF()
    ensures !AllSlashes("x/../f") && Walk([], "x/../f") == ["f"]
  {
    WalkXUp();
    SplitXUpF();
    assert "x/../f"[0] != '/';
  }

  /** How "x/../f" splits, the keys its parts name from the root, and which of them must be directories. */
  lemma DotDotParts()
    ensures Split("x") == ("", "x") && Split("x/..") == ("x", "..") && Split("x/../f") == ("x/..", "f")
    ensures !AllSlashes("x") && !AllSlashes("x/..") && !AllSlashes("x/../f")
    ensures Walk([], "x") == ["x"] && Walk([], "x/..") == [] && Walk([], "x/../f") == ["f"]
    ensures !MustBeDir("x") && MustBeDir("x/..") && !MustBeDir("x/../f")
  {
    SplitX();
    SplitXUp();
    SplitXUpF();
    WalkXUpF();
    NamedEntryNotMustBeDir("x");
    NamedEntryNotMustBeDir("x/../f");
  }

  /** A non-empty path with an empty tail ends in a slash; its head has no trailing slash and a tail of its own. */
  lemma EmptyTail(p: string)
    requires p != "" && !AllSlashes(p) && Split(p).1 == ""
    ensures p[|p| - 1] == '/'
    ensures var head := Split(p).0; head != "" && !AllSlashes(head) && Split(head).1 != ""
  {
    var i := AfterLastSlash(p);
    assert i == |p|;
    RStripFacts(p[..i]);
    var head := Split(p).0;
    NoTrailingSlashHasTail(head);
  }

  /** A path that does not end in a slash has a non-empty tail. */
  lemma NoTrailingSlashHasTail(q: string)
    requires q != "" && q[|q| - 1] != '/'
    ensures !AllSlashes(q) && Split(q).1 != ""
  {
    assert AfterLastSlash(q) < |q|;
  }

  /** A path whose last component is a plain name need not name a directory. */
  lemma NamedEntryNotMustBeDir(p: string)
    requires Split(p).1 != "" && Split(p).1 != "." && Split(p).1 != ".."
    ensures !MustBeDir(p)
  {
    SplitFacts(p);
    var tail := Split(p).1;
    assert p[|p| - 1] == p[|p| - |tail|..][|tail| - 1];
  }

  /**
   * `os.path.expanduser(p)` with `home` as `$HOME`: a leading "~" alone or
   * followed by "/" is replaced by the home directory with its trailing
   * slashes removed; "~user" forms are left as they are.
   */
  function ExpandUser(p: string, home: string): (r: string)
    ensures !StartsWith(p, "~") ==> r == p
    ensures (p == "~" || StartsWith(p, "~/")) && RStripSlashes(home) + p[1..] != "" ==> r == RStripSlashes(home) + p[1..]
  {
    if !StartsWith(p, "~") then p
    else
      var i := IndexOf(p[1..], '/') + 1;
      if i != 1 then p
      else
        var expanded := RStripSlashes(home) + p[1..];
        if expanded == "" then "/" else expanded
  }
}
