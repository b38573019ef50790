/** Resolving a file name against the workspace, as `write_file` and
    `read_file` do (mcp-server/server.py, lines 47-49 and 61-62):
    `os.path.abspath(os.path.join(WORKSPACE_DIR, filename))`, then a plain
    `startswith(WORKSPACE_DIR)` test on the strings.  The library functions
    are modelled on POSIX paths: `posixpath.join` for two parts and the
    component loop of `posixpath.normpath` for an absolute path. */
module Paths {
  import opened Base

  /** `s.split("/")`. */
  function Split(s: string): (r: seq<string>)
    ensures |r| >= 1 && forall k :: 0 <= k < |r| ==> '/' !in r[k]
  {
    if s == [] then [""]
    else
      var rest := Split(s[1..]);
      if s[0] == '/' then [""] + rest else [[s[0]] + rest[0]] + rest[1..]
  }

  /** `"/".join(segs)`. */
  function JoinSlash(segs: seq<string>): string
  {
    if segs == [] then ""
    else if |segs| == 1 then segs[0]
    else segs[0] + "/" + JoinSlash(segs[1..])
  }

  /** Joining the pieces of a split gives the string back. */
  lemma {:induction false} JoinSplit(s: string)
    ensures JoinSlash(Split(s)) == s
    decreases |s|
  {
    if s != [] {
      JoinSplit(s[1..]);
      var rest := Split(s[1..]);
      if s[0] == '/' {
        assert s == "/" + s[1..];
      } else {
        JoinHead([s[0]], rest);
        assert s == [s[0]] + s[1..];
      }
    }
  }

  /** Prepending to the first segment prepends to the joined string. */
  lemma {:induction false} JoinHead(x: string, segs: seq<string>)
    requires |segs| >= 1
    ensures JoinSlash([x + segs[0]] + segs[1..]) == x + JoinSlash(segs)
  {
    var t := [x + segs[0]] + segs[1..];
    if |segs| > 1 {
      assert t[0] == x + segs[0] && t[1..] == segs[1..];
      assert JoinSlash(t) == (x + segs[0]) + "/" + JoinSlash(segs[1..]);
      assert JoinSlash(segs) == segs[0] + "/" + JoinSlash(segs[1..]);
    } else {
      assert t == [x + segs[0]];
    }
  }

  lemma {:induction false} SplitAppend(a: string, b: string)
    ensures Split(a + "/" + b) == Split(a) + Split(b)
    decreases |a|
  {
    if a == [] {
      assert a + "/" + b == "/" + b;
      SplitSlash(b);
    } else {
      var t := a[1..] + "/" + b;
      assert a + "/" + b == [a[0]] + t && a == [a[0]] + a[1..];
      SplitAppend(a[1..], b);
      if a[0] == '/' {
        SplitSlash(t);
        SplitSlash(a[1..]);
      } else {
        SplitChar(a[0], t);
        SplitChar(a[0], a[1..]);
        ExtendHead([a[0]], Split(a[1..]), Split(b));
      }
    }
  }

  lemma SplitSlash(t: string)
    ensures Split("/" + t) == [""] + Split(t)
  {
    assert ("/" + t)[1..] == t;
  }

  lemma SplitChar(c: char, t: string)
    requires c != '/'
    ensures Split([c] + t) == [[c] + Split(t)[0]] + Split(t)[1..]
  {
    assert ([c] + t)[1..] == t;
  }

  lemma ExtendHead(x: string, front: seq<string>, back: seq<string>)
    requires |front| >= 1
    ensures [x + (front + back)[0]] + (front + back)[1..] == ([x + front[0]] + front[1..]) + back
  {
    assert (front + back)[1..] == front[1..] + back;
  }

  /** A string without a slash is one piece. */
  lemma {:induction false} SplitNoSlash(s: string)
    requires '/' !in s
    ensures Split(s) == [s]
    decreases |s|
  {
    if s != [] {
      SplitNoSlash(s[1..]);
      assert s == [s[0]] + s[1..];
    }
  }

  /** Splitting a join of slash-free segments gives the segments back. */
  lemma {:induction false} SplitJoin(segs: seq<string>)
    requires |segs| >= 1 && forall k :: 0 <= k < |segs| ==> '/' !in segs[k]
    ensures Split(JoinSlash(segs)) == segs
    decreases |segs|
  {
    SplitNoSlash(segs[0]);
    if |segs| > 1 {
      SplitJoin(segs[1..]);
      SplitAppend(segs[0], JoinSlash(segs[1..]));
    }
  }

  lemma {:induction false} JoinAppend(xs: seq<string>, ys: seq<string>)
    requires |xs| >= 1 && |ys| >= 1
    ensures JoinSlash(xs + ys) == JoinSlash(xs) + "/" + JoinSlash(ys)
    decreases |xs|
  {
    if |xs| > 1 {
      assert (xs + ys)[1..] == xs[1..] + ys;
      JoinAppend(xs[1..], ys);
    } else {
      assert (xs + ys)[1..] == ys;
    }
  }

  /** A component `normpath` keeps in an absolute path. */
  predicate Proper(c: string)
  {
    c != "" && c != "." && c != ".." && '/' !in c
  }

  /** The component loop of `posixpath.normpath` on an absolute path: empty
      and "." components are dropped, ".." drops the last kept component
      (and is dropped itself at the root), any other is kept. */
  function Collapse(comps: seq<string>): (r: seq<string>)
    requires forall k :: 0 <= k < |comps| ==> '/' !in comps[k]
    ensures forall k :: 0 <= k < |r| ==> Proper(r[k])
  {
    if comps == [] then []
    else
      var kept := Collapse(comps[..|comps| - 1]);
      var c := comps[|comps| - 1];
      if c == "" || c == "." then kept
      else if c == ".." then (if kept == [] then [] else kept[..|kept| - 1])
      else kept + [c]
  }

  /** Without "..", collapsing works piece by piece. */
  lemma {:induction false} CollapseAppend(xs: seq<string>, ys: seq<string>)
    requires forall k :: 0 <= k < |xs| ==> '/' !in xs[k]
    requires forall k :: 0 <= k < |ys| ==> '/' !in ys[k] && ys[k] != ".."
    ensures Collapse(xs + ys) == Collapse(xs) + Collapse(ys)
    decreases |ys|
  {
    if ys == [] {
      assert xs + ys == xs;
    } else {
      assert (xs + ys)[..|xs + ys| - 1] == xs + ys[..|ys| - 1];
      CollapseAppend(xs, ys[..|ys| - 1]);
    }
  }

  /** Proper components are kept as they are. */
  lemma {:induction false} CollapseProper(segs: seq<string>)
    requires forall k :: 0 <= k < |segs| ==> Proper(segs[k]) && '/' !in segs[k]
    ensures Collapse(segs) == segs
    decreases |segs|
  {
    if segs != [] {
      CollapseProper(segs[..|segs| - 1]);
    }
  }

  /** `posixpath.normpath` of an absolute path: two leading slashes are kept
      as two, one or three and more become one. */
  function NormAbs(p: string): string
    requires |p| > 0 && p[0] == '/'
  {
    var lead := if |p| >= 2 && p[1] == '/' && !(|p| >= 3 && p[2] == '/') then "//" else "/";
    lead + JoinSlash(Collapse(Split(p)))
  }

  /** `posixpath.join(base, name)`: an absolute name replaces the base. */
  function PyJoin(base: string, name: string): string
  {
    if |name| > 0 && name[0] == '/' then name
    else if base == [] || base[|base| - 1] == '/' then base + name
    else base + "/" + name
  }

  /** The workspace path: an absolute path of proper components, as
      `os.path.abspath("terraform_workspace")` produces. */
  predicate IsRoot(segs: seq<string>)
  {
    |segs| >= 1 && forall k :: 0 <= k < |segs| ==> Proper(segs[k])
  }

  function RootOf(segs: seq<string>): (r: string)
    requires IsRoot(segs)
    ensures |r| >= 2 && r[0] == '/' && r[1] != '/' && r[|r| - 1] != '/'
  {
    JoinFirstLast(segs);
    "/" + JoinSlash(segs)
  }

  lemma {:induction false} JoinFirstLast(segs: seq<string>)
    requires IsRoot(segs)
    ensures |JoinSlash(segs)| >= 1
    ensures JoinSlash(segs)[0] == segs[0][0]
    ensures JoinSlash(segs)[|JoinSlash(segs)| - 1] == segs[|segs| - 1][|segs[|segs| - 1]| - 1]
    decreases |segs|
  {
    if |segs| > 1 {
      JoinFirstLast(segs[1..]);
    }
  }

  /** `os.path.abspath(os.path.join(root, name))`. */
  function Resolve(root: string, name: string): string
    requires |root| > 0 && root[0] == '/'
  {
    NormAbs(PyJoin(root, name))
  }

  /** The guard of lines 49 and 62: the resolved path starts with the root string. */
  predicate Accepts(root: string, name: string)
    requires |root| > 0 && root[0] == '/'
  {
    root <= Resolve(root, name)
  }

  /** The resolved path of a strict descendant of the root, or the root itself. */
  predicate WithinRoot(root: string, path: string)
  {
    path == root || root + "/" <= path
  }

  // ---------------------------------------------------------------------
  // What the guard lets through

  /** The components after the root when `name` is joined to it. */
  lemma JoinedComponents(segs: seq<string>, name: string)
    requires IsRoot(segs) && (name == [] || name[0] != '/')
    ensures PyJoin(RootOf(segs), name) == RootOf(segs) + "/" + name
    ensures Split(RootOf(segs) + "/" + name) == [""] + segs + Split(name)
    ensures NormAbs(RootOf(segs) + "/" + name) == "/" + JoinSlash(Collapse([""] + segs + Split(name)))
  {
    JoinedSplit(segs, name);
    JoinedLead(segs, name);
  }

  lemma JoinedSplit(segs: seq<string>, name: string)
    requires IsRoot(segs)
    ensures Split(RootOf(segs) + "/" + name) == [""] + segs + Split(name)
  {
    var j := JoinSlash(segs);
    assert RootOf(segs) + "/" + name == "" + "/" + (j + "/" + name);
    SplitAppend("", j + "/" + name);
    SplitAppend(j, name);
    SplitJoin(segs);
  }

  /** The joined path starts with a single slash. */
  lemma JoinedLead(segs: seq<string>, name: string)
    requires IsRoot(segs)
    ensures var p := RootOf(segs) + "/" + name;
      |p| >= 2 && p[0] == '/' && p[1] != '/'
    ensures NormAbs(RootOf(segs) + "/" + name) == "/" + JoinSlash(Collapse(Split(RootOf(segs) + "/" + name)))
  {
    var root := RootOf(segs);
    assert (root + "/" + name)[1] == root[1];
  }

  /** A relative name without ".." resolves to the root or below it, and is
      accepted. */
  lemma RelativeStaysInside(segs: seq<string>, name: string)
    requires IsRoot(segs) && (name == [] || name[0] != '/')
    requires forall k :: 0 <= k < |Split(name)| ==> Split(name)[k] != ".."
    ensures var c := Collapse(Split(name));
      Resolve(RootOf(segs), name) == if c == [] then RootOf(segs) else RootOf(segs) + "/" + JoinSlash(c)
    ensures Accepts(RootOf(segs), name) && WithinRoot(RootOf(segs), Resolve(RootOf(segs), name))
  {
    var root := RootOf(segs);
    var c := Collapse(Split(name));
    var r := Resolve(root, name);
    RelativeResolves(segs, name);
    var j := JoinSlash(segs);
    assert root == "/" + j;
    if c != [] {
      var t := JoinSlash(c);
      JoinAppend(segs, c);
      assert r == "/" + (j + "/" + t);
      ConcatAssoc("/", j, "/", t);
      assert r == root + "/" + t;
      assert r[..|root + "/"|] == root + "/";
    } else {
      assert segs + c == segs;
      assert r == root;
    }
  }

  /** Concatenation regrouped to the left.  A separate lemma so that
      `RelativeStaysInside` does not have to find the regrouping among all
      its other sequence facts, which costs it more than the solver's
      budget. */
  lemma ConcatAssoc(a: string, b: string, c: string, d: string)
    ensures a + (b + c + d) == a + b + c + d
  {
  }

  lemma RelativeResolves(segs: seq<string>, name: string)
    requires IsRoot(segs) && (name == [] || name[0] != '/')
    requires forall k :: 0 <= k < |Split(name)| ==> Split(name)[k] != ".."
    ensures Resolve(RootOf(segs), name) == "/" + JoinSlash(segs + Collapse(Split(name)))
  {
    JoinedComponents(segs, name);
    CollapseRooted(segs, Split(name));
  }

  /** Collapsing the root's components followed by components without "..". */
  lemma CollapseRooted(segs: seq<string>, rest: seq<string>)
    requires IsRoot(segs)
    requires forall k :: 0 <= k < |rest| ==> '/' !in rest[k] && rest[k] != ".."
    ensures Collapse([""] + segs + rest) == segs + Collapse(rest)
  {
    var head := [""] + segs;
    forall k | 0 <= k < |head|
      ensures '/' !in head[k]
    {
      if k > 0 {
        assert head[k] == segs[k - 1];
      }
    }
    CollapseAppend(head, rest);
    CollapseAppend([""], segs);
    CollapseProper(segs);
    assert [""][..0] == [];
    assert Collapse([""]) == [];
    assert Collapse(head) == segs;
  }

  /** An absolute name ignores the root altogether. */
  lemma AbsoluteReplacesRoot(root: string, name: string)
    requires |root| > 0 && root[0] == '/' && |name| > 0 && name[0] == '/'
    ensures Resolve(root, name) == NormAbs(name)
    ensures Accepts(root, name) <==> root <= NormAbs(name)
  {
  }

  /** An absolute path of proper components is its own normal form. */
  lemma NormalAbsolute(segs: seq<string>)
    requires IsRoot(segs)
    ensures NormAbs(RootOf(segs)) == RootOf(segs)
  {
    var j := JoinSlash(segs);
    var root := RootOf(segs);
    assert root == "" + "/" + j;
    SplitAppend("", j);
    SplitJoin(segs);
    assert Split(root) == [""] + segs;
    CollapseRooted(segs, []);
    assert [""] + segs + [] == [""] + segs;
    assert Collapse(Split(root)) == segs;
    JoinFirstLast(segs);
    assert segs[0][0] != '/';
    assert root[1] == j[0];
  }

  // ---------------------------------------------------------------------
  // Climbing out of the root

  function Dots(k: nat): (r: seq<string>)
    ensures |r| == k && forall i :: 0 <= i < k ==> r[i] == ".."
  {
    seq(k, _ => "..")
  }

  /** Each trailing ".." drops one more of the components kept so far. */
  lemma {:induction false} CollapseClimb(xs: seq<string>, k: nat)
    requires forall i :: 0 <= i < |xs| ==> '/' !in xs[i]
    ensures var kept := Collapse(xs);
      Collapse(xs + Dots(k)) == if k <= |kept| then kept[..|kept| - k] else []
    decreases k
  {
    if k == 0 {
      assert xs + Dots(0) == xs;
    } else {
      var shorter := xs + Dots(k - 1);
      assert xs + Dots(k) == shorter + [".."] by {
        assert Dots(k) == Dots(k - 1) + [".."];
      }
      CollapseUp(shorter);
      var prev := Collapse(shorter);
      CollapseClimb(xs, k - 1);
      var kept := Collapse(xs);
      if k <= |kept| {
        assert prev == kept[..|kept| - (k - 1)];
        assert prev[..|prev| - 1] == kept[..|kept| - k];
      } else {
        assert prev == [];
      }
    }
  }

  /** A trailing ".." drops the last component kept, if any. */
  lemma CollapseUp(comps: seq<string>)
    requires forall i :: 0 <= i < |comps| ==> '/' !in comps[i]
    ensures var prev := Collapse(comps);
      Collapse(comps + [".."]) == if prev == [] then [] else prev[..|prev| - 1]
  {
    var up := comps + [".."];
    assert up[..|up| - 1] == comps && up[|up| - 1] == "..";
  }

  lemma {:induction false} JoinLonger(segs: seq<string>, m: nat)
    requires IsRoot(segs) && m < |segs|
    ensures |"/" + JoinSlash(segs[..m])| < |RootOf(segs)|
  {
    if m > 0 {
      JoinAppend(segs[..m], segs[m..]);
      assert segs[..m] + segs[m..] == segs;
    }
  }

  /** A name made only of ".." steps resolves to an ancestor of the root
      (or to "/") and is rejected. */
  lemma ParentsRejected(segs: seq<string>, k: nat)
    requires IsRoot(segs) && k >= 1
    ensures !Accepts(RootOf(segs), JoinSlash(Dots(k)))
  {
    var m := if k <= |segs| then |segs| - k else 0;
    ParentsResolve(segs, k, m);
    JoinLonger(segs, m);
  }

  /** Where a name of `k` ".." steps resolves: the root with its last `k`
      components dropped. */
  lemma ParentsResolve(segs: seq<string>, k: nat, m: nat)
    requires IsRoot(segs) && k >= 1 && m == if k <= |segs| then |segs| - k else 0
    ensures Resolve(RootOf(segs), JoinSlash(Dots(k))) == "/" + JoinSlash(segs[..m])
  {
    var name := JoinSlash(Dots(k));
    SplitJoin(Dots(k));
    DotsStartWithDot(Dots(k));
    JoinedComponents(segs, name);
    ClimbCollapse(segs, k, m);
  }

  lemma ClimbCollapse(segs: seq<string>, k: nat, m: nat)
    requires IsRoot(segs) && m == if k <= |segs| then |segs| - k else 0
    ensures Collapse([""] + segs + Dots(k)) == segs[..m]
  {
    CollapseProperRoot(segs);
    CollapseClimb([""] + segs, k);
    if |segs| < k {
      assert segs[..m] == [];
    }
  }

  /** A name of ".." steps starts with '.', so `posixpath.join` keeps it relative. */
  lemma DotsStartWithDot(dots: seq<string>)
    requires |dots| >= 1 && forall i :: 0 <= i < |dots| ==> dots[i] == ".."
    ensures |JoinSlash(dots)| >= 1 && JoinSlash(dots)[0] == '.'
  {
    if |dots| > 1 {
      assert JoinSlash(dots) == dots[0] + "/" + JoinSlash(dots[1..]);
    }
  }

  lemma CollapseProperRoot(segs: seq<string>)
    requires IsRoot(segs)
    ensures Collapse([""] + segs) == segs
  {
    CollapseRooted(segs, []);
    assert [""] + segs + [] == [""] + segs;
  }

  lemma PrefixCancel(p: string, x: string, y: string)
    ensures (p + x <= p + y) <==> x <= y
  {
    if p + x <= p + y {
      assert (p + y)[..|p + x|] == p + x;
      assert x == (p + x)[|p|..] == (p + y)[|p|..|p| + |x|] == y[..|x|];
    }
    if x <= y {
      assert (p + y)[..|p + x|] == p + y[..|x|];
    }
  }

  /** A slash-free string is a prefix of `s + "/" + t` exactly when it is one of `s`. */
  lemma PrefixNoSlash(a: string, s: string, t: string)
    requires '/' !in a
    ensures (a <= s + "/" + t) <==> a <= s
  {
    var u := s + "/" + t;
    if |a| <= |s| {
      assert u[..|a|] == s[..|a|];
    } else if |a| <= |u| {
      assert u[..|a|][|s|] == '/';
      assert a[|s|] in a;
    }
  }

  /** Where "../<s>/<f>" lands: next to the root's last component. */
  lemma ClimbResolves(segs: seq<string>, s: string, f: string)
    requires IsRoot(segs) && Proper(s) && Proper(f)
    ensures Resolve(RootOf(segs), "../" + s + "/" + f) == "/" + JoinSlash(segs[..|segs| - 1] + [s, f])
  {
    var name := "../" + s + "/" + f;
    ClimbName(s, f);
    SplitJoin(["..", s, f]);
    JoinedComponents(segs, name);
    ClimbThenDescend(segs, s, f);
  }

  lemma ClimbName(s: string, f: string)
    ensures "../" + s + "/" + f == JoinSlash(["..", s, f])
  {
    assert ["..", s, f][1..] == [s, f] && [s, f][1..] == [f];
    assert JoinSlash([f]) == f;
    assert JoinSlash([s, f]) == s + "/" + f;
    assert JoinSlash(["..", s, f]) == ".." + "/" + JoinSlash([s, f]);
  }

  lemma ProperPair(s: string, f: string)
    requires Proper(s) && Proper(f)
    ensures Collapse([s, f]) == [s, f]
  {
    var pair := [s, f];
    assert pair[0] == s && pair[1] == f;
    CollapseProper(pair);
  }

  lemma ClimbShape(segs: seq<string>, s: string, f: string)
    requires IsRoot(segs)
    ensures [""] + segs + ["..", s, f] == ([""] + segs + Dots(1)) + [s, f]
    ensures var up := [""] + segs + Dots(1); forall k :: 0 <= k < |up| ==> '/' !in up[k]
  {
    var up := [""] + segs + Dots(1);
    assert Dots(1) == [".."];
    assert ["..", s, f] == [".."] + [s, f];
    forall k | 0 <= k < |up| ensures '/' !in up[k] {
      if 0 < k <= |segs| { assert up[k] == segs[k - 1]; }
    }
  }

  /** One ".." and two proper components after the root. */
  lemma ClimbThenDescend(segs: seq<string>, s: string, f: string)
    requires IsRoot(segs) && Proper(s) && Proper(f)
    ensures Collapse([""] + segs + ["..", s, f]) == segs[..|segs| - 1] + [s, f]
  {
    ClimbShape(segs, s, f);
    ClimbUp(segs, s, f);
  }

  lemma ClimbUp(segs: seq<string>, s: string, f: string)
    requires IsRoot(segs) && Proper(s) && Proper(f)
    requires var up := [""] + segs + Dots(1); forall k :: 0 <= k < |up| ==> '/' !in up[k]
    ensures Collapse(([""] + segs + Dots(1)) + [s, f]) == segs[..|segs| - 1] + [s, f]
  {
    CollapseAppend([""] + segs + Dots(1), [s, f]);
    ProperPair(s, f);
    ClimbCollapse(segs, 1, |segs| - 1);
  }

  function ParentPrefix(segs: seq<string>): string
    requires |segs| >= 1
  {
    if |segs| == 1 then "/" else "/" + JoinSlash(segs[..|segs| - 1]) + "/"
  }

  /** The root and the resolved "../<s>/<f>" share everything up to the
      root's last component. */
  lemma ClimbParts(segs: seq<string>, s: string, f: string)
    requires IsRoot(segs) && Proper(s) && Proper(f)
    ensures RootOf(segs) == ParentPrefix(segs) + segs[|segs| - 1]
    ensures Resolve(RootOf(segs), "../" + s + "/" + f) == ParentPrefix(segs) + (s + "/" + f)
  {
    var init := segs[..|segs| - 1];
    var last := segs[|segs| - 1];
    ClimbResolves(segs, s, f);
    assert [s, f][1..] == [f];
    assert JoinSlash([s, f]) == s + "/" + f;
    assert segs == init + [last];
    if init == [] {
      assert init + [s, f] == [s, f];
    } else {
      JoinAppend(init, [last]);
      JoinAppend(init, [s, f]);
    }
  }

  /** One step up and one step into `s`: accepted exactly when the root's
      last component is a prefix of `s` -- a raw string test, not a path test. */
  lemma ClimbOneLevel(segs: seq<string>, s: string, f: string)
    requires IsRoot(segs) && Proper(s) && Proper(f)
    ensures Accepts(RootOf(segs), "../" + s + "/" + f) <==> segs[|segs| - 1] <= s
  {
    ClimbParts(segs, s, f);
    PrefixCancel(ParentPrefix(segs), segs[|segs| - 1], s + "/" + f);
    PrefixNoSlash(segs[|segs| - 1], s, f);
  }

  /** Where "../<last><tail>/<f>" lands: the root's string followed by
      the rest of the sibling's path. */
  lemma SiblingResolves(segs: seq<string>, tail: string, f: string)
    requires IsRoot(segs) && Proper(segs[|segs| - 1] + tail) && Proper(f)
    ensures var name := "../" + segs[|segs| - 1] + tail + "/" + f;
      Resolve(RootOf(segs), name) == RootOf(segs) + (tail + "/" + f)
  {
    var last := segs[|segs| - 1];
    var s := last + tail;
    assert "../" + last + tail + "/" + f == "../" + s + "/" + f;
    ClimbParts(segs, s, f);
    var pp := ParentPrefix(segs);
    assert pp + ((last + tail) + "/" + f) == (pp + last) + (tail + "/" + f);
  }

  /** A string that continues the root with anything but '/' is neither the
      root nor below it. */
  lemma ContinuesRoot(root: string, t: string)
    requires t != [] && t[0] != '/'
    ensures !WithinRoot(root, root + t)
  {
    assert (root + t)[|root|] == t[0];
  }

  /** A sibling directory whose name extends the root's last component is
      accepted although it lies outside the root. */
  lemma SiblingAccepted(segs: seq<string>, tail: string, f: string)
    requires IsRoot(segs) && tail != [] && Proper(segs[|segs| - 1] + tail) && Proper(f)
    ensures var name := "../" + segs[|segs| - 1] + tail + "/" + f;
      Accepts(RootOf(segs), name) && !WithinRoot(RootOf(segs), Resolve(RootOf(segs), name))
  {
    var last := segs[|segs| - 1];
    var s := last + tail;
    assert "../" + last + tail + "/" + f == "../" + s + "/" + f;
    ClimbOneLevel(segs, s, f);
    SiblingResolves(segs, tail, f);
    assert s[|last|] == tail[0] && s[|last|] in s;
    ContinuesRoot(RootOf(segs), tail + "/" + f);
  }

  // ---------------------------------------------------------------------
  // The guard on a concrete workspace

  /** The workspace of a server started in /srv/agent. */
  const ExampleSegs := ["srv", "agent", "terraform_workspace"]

  lemma ExampleIsRoot()
    ensures IsRoot(ExampleSegs) && ExampleSegs[|ExampleSegs| - 1] == "terraform_workspace"
  {
  }

  /** A plain file name lands in the workspace. */
  lemma ExampleInside()
    ensures Accepts(RootOf(ExampleSegs), "main.tf")
    ensures Resolve(RootOf(ExampleSegs), "main.tf") == RootOf(ExampleSegs) + "/" + "main.tf"
  {
    ExampleIsRoot();
    SplitNoSlash("main.tf");
    RelativeStaysInside(ExampleSegs, "main.tf");
    assert Collapse(["main.tf"]) == ["main.tf"];
  }

  /** Climbing out is rejected, into an unrelated directory or to an ancestor. */
  lemma ExampleClimbs()
    ensures !Accepts(RootOf(ExampleSegs), "../" + "etc" + "/" + "passwd")
    ensures !Accepts(RootOf(ExampleSegs), JoinSlash(Dots(2)))
  {
    ExampleIsRoot();
    ClimbOneLevel(ExampleSegs, "etc", "passwd");
    assert "terraform_workspace"[0] != "etc"[0];
    ParentsRejected(ExampleSegs, 2);
  }

  /** The sibling "terraform_workspace_evil" passes the guard. */
  lemma ExampleSibling()
    ensures var name := "../" + "terraform_workspace" + "_evil" + "/" + "f";
      Accepts(RootOf(ExampleSegs), name) && !WithinRoot(RootOf(ExampleSegs), Resolve(RootOf(ExampleSegs), name))
  {
    ExampleIsRoot();
    assert Proper("terraform_workspace" + "_evil");
    SiblingAccepted(ExampleSegs, "_evil", "f");
  }
}
