/** Planning which runtime paths to mount around what the host has already mounted below them. */
module Namespace {
  import opened Wrappers

  type Segment(==, !new) = string
  /** An absolute path as its segments; the root directory is the empty path. */
  type Path = seq<Segment>

  datatype Node = File | Symlink | Dir(children: seq<Entry>)

  datatype Entry = Entry(name: Segment, node: Node)

  const MAX_DESCENDANTS := 64

  /** A directory lists each name once. */
  predicate WellFormed(n: Node) {
    n.Dir? ==>
      && (forall i, j :: 0 <= i < j < |n.children| ==> n.children[i].name != n.children[j].name)
      && forall i :: 0 <= i < |n.children| ==> WellFormed(n.children[i].node)
  }

  /** `rel` names something inside `n`. */
  predicate Exists(n: Node, rel: Path)
    decreases n
  {
    rel == [] ||
    (n.Dir? && exists i :: 0 <= i < |n.children| && n.children[i].name == rel[0]
                           && Exists(n.children[i].node, rel[1..]))
  }

  /** Nothing is mounted strictly below a file or a symlink: the kernel reports mount points by the
      directories that really lead to them. */
  predicate Mountable(path: Path, n: Node, mounts: set<Path>)
    decreases n
  {
    match n
    case Dir(children) =>
      forall i :: 0 <= i < |children| ==> Mountable(path + [children[i].name], children[i].node, mounts)
    case _ => forall m :: m in mounts ==> !(path < m)
  }

  // -- splitting around mounts ------------------------------------------------------------------

  /** `runtime_sources.visit`. */
  function Visit(path: Path, n: Node, mounts: set<Path>): seq<Path>
    decreases n, 0
  {
    if path in mounts then []
    else if !exists m :: m in mounts && path <= m then [path]
    else if n.Dir? then VisitChildren(path, n.children, mounts)
    else []
  }

  /** The loop over a directory's entries, in order. */
  function VisitChildren(path: Path, children: seq<Entry>, mounts: set<Path>): seq<Path>
    decreases children, 1
  {
    if children == [] then []
    else
      VisitChildren(path, children[..|children| - 1], mounts)
      + VisitChild(path, children[|children| - 1], mounts)
  }

  function VisitChild(path: Path, child: Entry, mounts: set<Path>): seq<Path>
    decreases child, 0
  {
    var p := path + [child.name];
    if p in mounts then []
    else if child.node.Dir? then Visit(p, child.node, mounts)
    else [p]
  }

  /** How many of the sources hold `q`. */
  function Holding(sources: seq<Path>, q: Path): nat {
    if sources == [] then 0
    else Holding(sources[..|sources| - 1], q) + (if sources[|sources| - 1] <= q then 1 else 0)
  }

  lemma {:induction false} HoldingConcat(a: seq<Path>, b: seq<Path>, q: Path)
    ensures Holding(a + b, q) == Holding(a, q) + Holding(b, q)
    decreases |b|
  {
    if b == [] {
      assert a + b == a;
    } else {
      assert (a + b)[..|a + b| - 1] == a + b[..|b| - 1];
      HoldingConcat(a, b[..|b| - 1], q);
    }
  }

  lemma {:induction false} HoldingNone(sources: seq<Path>, q: Path)
    requires forall i :: 0 <= i < |sources| ==> !(sources[i] <= q)
    ensures Holding(sources, q) == 0
  {
    if sources != [] {
      HoldingNone(sources[..|sources| - 1], q);
    }
  }

  /** A path the split must leave out: at or below a mount, or holding one. */
  predicate Split(q: Path, mounts: set<Path>) {
    exists m :: m in mounts && (m <= q || q <= m)
  }

  /** Sources stay below the path visited, and none of them holds a mount. */
  lemma {:induction false} SourcesAreClear(path: Path, n: Node, mounts: set<Path>, i: nat)
    requires Mountable(path, n, mounts) && i < |Visit(path, n, mounts)|
    ensures path <= Visit(path, n, mounts)[i]
    ensures forall m :: m in mounts ==> !(Visit(path, n, mounts)[i] <= m)
    decreases n, 1
  {
    if path !in mounts && (exists m :: m in mounts && path <= m) && n.Dir? {
      assert n.children[..|n.children|] == n.children;
      ChildSourcesAreClear(path, n, |n.children|, mounts, i);
    }
  }

  /** A path holding an unmounted file or symlink holds no mount. */
  lemma LeafIsClear(p: Path, n: Node, mounts: set<Path>)
    requires Mountable(p, n, mounts) && !n.Dir? && p !in mounts
    ensures forall m :: m in mounts ==> !(p <= m)
  {
    forall m | m in mounts ensures !(p <= m) {
      assert m != p && !(p < m);
    }
  }

  lemma ProperPrefix(m: Path, path: Path, name: Segment)
    ensures m < path + [name] ==> m == path || m < path
  {
    if m < path + [name] {
      assert m == (path + [name])[..|m|] == path[..|m|];
    }
  }

  lemma {:induction false} ChildSourcesAreClear(path: Path, n: Node, k: nat, mounts: set<Path>, i: nat)
    requires n.Dir? && k <= |n.children| && Mountable(path, n, mounts)
    requires i < |VisitChildren(path, n.children[..k], mounts)|
    ensures var s := VisitChildren(path, n.children[..k], mounts)[i];
            && (exists j :: 0 <= j < k && path + [n.children[j].name] <= s)
            && path <= s && forall m :: m in mounts ==> !(s <= m)
    decreases n, 0, k
  {
    assert n.children[..k][..k - 1] == n.children[..k - 1];
    var before := VisitChildren(path, n.children[..k - 1], mounts);
    if i < |before| {
      ChildSourcesAreClear(path, n, k - 1, mounts, i);
    } else {
      var child := n.children[k - 1];
      var p := path + [child.name];
      assert child.node < n;
      assert Mountable(p, child.node, mounts);
      if child.node.Dir? {
        SourcesAreClear(p, child.node, mounts, i - |before|);
      } else {
        LeafIsClear(p, child.node, mounts);
      }
    }
  }

  /** Exact cover of one visited path: everything in the tree is held by exactly one source, except
      what is at or below a mount or holds one, which is held by none. */
  lemma {:induction false} VisitCovers(path: Path, n: Node, mounts: set<Path>, rel: Path)
    requires WellFormed(n) && Mountable(path, n, mounts) && Exists(n, rel)
    requires forall m :: m in mounts ==> !(m < path)
    ensures Holding(Visit(path, n, mounts), path + rel) == if Split(path + rel, mounts) then 0 else 1
    decreases n, 1
  {
    var q := path + rel;
    if path in mounts {
      assert path <= q;
    } else if !exists m :: m in mounts && path <= m {
      forall m | m in mounts ensures !(m <= q || q <= m) {
        if m <= q { Comparable(m, path, q); }
      }
      assert [path][..0] == [];
      assert Holding([path], q) == 1;
    } else if n.Dir? {
      assert n.children[..|n.children|] == n.children;
      if rel == [] {
        assert q == path;
        forall i | 0 <= i < |Visit(path, n, mounts)| ensures !(Visit(path, n, mounts)[i] <= q) {
          ChildSourcesAreClear(path, n, |n.children|, mounts, i);
        }
        HoldingNone(Visit(path, n, mounts), q);
      } else {
        ChildrenCover(path, n, |n.children|, mounts, rel);
      }
    }
  }

  lemma Comparable(a: Path, b: Path, c: Path)
    requires a <= c && b <= c
    ensures a <= b || b < a
  {
  }

  lemma {:induction false} ChildrenCover(path: Path, n: Node, k: nat, mounts: set<Path>, rel: Path)
    requires n.Dir? && k <= |n.children| && WellFormed(n) && Mountable(path, n, mounts)
    requires rel != [] && Exists(n, rel) && path !in mounts
    requires forall m :: m in mounts ==> !(m < path)
    ensures Holding(VisitChildren(path, n.children[..k], mounts), path + rel) ==
            if (exists j :: 0 <= j < k && n.children[j].name == rel[0]) && !Split(path + rel, mounts)
            then 1 else 0
    decreases n, 0, k
  {
    hide Split, Visit, VisitChild, Mountable, Exists;
    if k > 0 {
      assert n.children[..k][..k - 1] == n.children[..k - 1];
      var child := n.children[k - 1];
      var mine := VisitChild(path, child, mounts);
      ChildrenCover(path, n, k - 1, mounts, rel);
      HoldingConcat(VisitChildren(path, n.children[..k - 1], mounts), mine, path + rel);
      if child.name == rel[0] {
        ChildCovers(path, n, k - 1, mounts, rel);
        assert !exists j :: 0 <= j < k - 1 && n.children[j].name == rel[0];
      } else {
        OtherChild(path, n, k - 1, mounts, rel);
      }
    }
  }

  /** The sources of the child that `rel` goes through. */
  lemma {:induction false} ChildCovers(path: Path, n: Node, k: nat, mounts: set<Path>, rel: Path)
    requires n.Dir? && k < |n.children| && WellFormed(n) && Mountable(path, n, mounts)
    requires rel != [] && Exists(n, rel) && n.children[k].name == rel[0] && path !in mounts
    requires forall m :: m in mounts ==> !(m < path)
    ensures Holding(VisitChild(path, n.children[k], mounts), path + rel)
            == if Split(path + rel, mounts) then 0 else 1
    decreases n, 0, 0
  {
    var child := n.children[k];
    var p, q := path + [child.name], path + rel;
    assert child.node < n && WellFormed(child.node) && Mountable(p, child.node, mounts);
    assert Exists(child.node, rel[1..]);
    assert q == p + rel[1..];
    forall m | m in mounts ensures !(m < p) {
      ProperPrefix(m, path, child.name);
    }
    if p in mounts {
      assert p <= q;
    } else if child.node.Dir? {
      VisitCovers(p, child.node, mounts, rel[1..]);
    } else {
      assert rel[1..] == [] && q == p;
      assert [p][..0] == [];
      assert Holding([p], q) == 1;
      LeafIsClear(p, child.node, mounts);
      forall m | m in mounts ensures !(m <= q || q <= m) {
        assert m <= q ==> m < q || m == q;
      }
    }
  }

  /** No source of another child holds it. */
  lemma OtherChild(path: Path, n: Node, k: nat, mounts: set<Path>, rel: Path)
    requires n.Dir? && k < |n.children| && Mountable(path, n, mounts)
    requires rel != [] && n.children[k].name != rel[0]
    ensures Holding(VisitChild(path, n.children[k], mounts), path + rel) == 0
  {
    var child := n.children[k];
    var p, q := path + [child.name], path + rel;
    var mine := VisitChild(path, child, mounts);
    forall i | 0 <= i < |mine| ensures !(mine[i] <= q) {
      if child.node.Dir? { SourcesAreClear(p, child.node, mounts, i); }
      assert p <= mine[i] && p[|path|] == child.name && q[|path|] == rel[0];
    }
    HoldingNone(mine, q);
  }

  // -- the planner ----------------------------------------------------------------------------

  predicate Names(p: Path) {
    forall i :: 0 <= i < |p| ==> p[i] != "" && '/' !in p[i]
  }

  /** A path's text without the trailing slash: empty for the root directory. */
  function Body(p: Path): string {
    if p == [] then "" else Body(p[..|p| - 1]) + "/" + p[|p| - 1]
  }

  function Text(p: Path): string {
    if p == [] then "/" else Body(p)
  }

  /** The test the code makes on path texts, `str(p).startswith(str(root).rstrip("/") + "/")`. */
  predicate TextBelow(root: Path, p: Path) {
    Body(root) + "/" <= Text(p)
  }

  lemma {:induction false} BodyConcat(a: Path, b: Path)
    ensures Body(a + b) == Body(a) + Body(b)
    decreases |b|
  {
    if b == [] {
      assert a + b == a;
    } else {
      assert (a + b)[..|a + b| - 1] == a + b[..|b| - 1];
      BodyConcat(a, b[..|b| - 1]);
    }
  }

  lemma BodyHead(p: Path)
    requires p != []
    ensures Body(p) == "/" + p[0] + Body(p[1..])
  {
    BodyConcat([p[0]], p[1..]);
    assert p == [p[0]] + p[1..];
    assert [p[0]][..0] == [] && Body([p[0]]) == Body([]) + "/" + p[0];
  }

  /** Reading one segment off two texts: a slash ends the segment in both. */
  lemma SegmentsAgree(x: string, s: string, y: string, t: string)
    requires '/' !in x && '/' !in y
    requires s != "" && s[0] == '/' && (t == "" || t[0] == '/')
    requires x + s <= y + t
    ensures x == y && s <= t
  {
    assert (x + s)[|x|] == '/' && (y + t)[|x|] == '/';
    assert forall k :: 0 <= k < |y| ==> (y + t)[k] in y;
    assert forall k :: 0 <= k < |x| ==> (x + s)[k] in x;
    assert |x| >= |y|;
    assert t != "" ==> (y + t)[|y|] == '/';
    assert |x| == |y|;
    assert x == (x + s)[..|x|] == (y + t)[..|x|] == y;
    assert s == (x + s)[|x|..] && t == (y + t)[|x|..];
  }

  lemma SlashPrefix(a: string, b: string)
    ensures "/" + a <= "/" + b <==> a <= b
  {
    assert ("/" + a)[1..] == a && ("/" + b)[1..] == b;
    if a <= b {
      assert b == a + b[|a|..];
      assert "/" + b == ("/" + a) + b[|a|..];
    }
  }

  /** Both texts read one segment further. */
  lemma TextStep(root: Path, p: Path)
    requires Names(root) && Names(p) && root != [] && p != []
    ensures TextBelow(root, p) <==> root[0] == p[0] && Body(root[1..]) + "/" <= Body(p[1..])
  {
    BodyHead(root);
    BodyHead(p);
    var x, y := root[0], p[0];
    var s, t := Body(root[1..]) + "/", Body(p[1..]);
    if root[1..] != [] { BodyHead(root[1..]); }
    if p[1..] != [] { BodyHead(p[1..]); }
    assert Body(root) + "/" == "/" + (x + s);
    assert Body(p) == "/" + (y + t);
    SlashPrefix(x + s, y + t);
    if s <= t {
      assert x + t == x + s + t[|s|..];
    }
    if x + s <= y + t {
      SegmentsAgree(x, s, y, t);
    }
  }

  /** The text test is exactly "strictly below", except that the root directory is below itself. */
  lemma {:induction false} TextBelowIsBelow(root: Path, p: Path)
    requires Names(root) && Names(p)
    ensures TextBelow(root, p) <==> root < p || (root == [] && p == [])
    decreases |root|
  {
    if root == [] {
      if p != [] { BodyHead(p); }
    } else if p == [] {
      BodyHead(root);
    } else {
      TextStep(root, p);
      if p[1..] != [] {
        TextBelowIsBelow(root[1..], p[1..]);
      }
      assert root == [root[0]] + root[1..] && p == [p[0]] + p[1..];
    }
  }

  function Descendants(root: Path, mounts: set<Path>): set<Path> {
    set p | p in mounts && TextBelow(root, p)
  }

  datatype Error = TooManyMounts | NestedMount

  /** `runtime_sources`. */
  method RuntimeSources(root: Path, n: Node, mounts: set<Path>) returns (r: Result<seq<Path>, Error>)
    ensures r.Failure? <==> |Descendants(root, mounts)| > MAX_DESCENDANTS
    ensures r.Success? ==> r.value == Visit(root, n, Descendants(root, mounts))
  {
    var descendants := Descendants(root, mounts);
    if |descendants| > MAX_DESCENDANTS {
      return Failure(TooManyMounts);
    }
    var sources := VisitNode(root, n, descendants);
    r := Success(sources);
  }

  /** `visit` as written: a recursion that extends one local list per directory. */
  method VisitNode(path: Path, n: Node, mounts: set<Path>) returns (result: seq<Path>)
    ensures result == Visit(path, n, mounts)
    decreases n
  {
    if path in mounts {
      return [];
    }
    if !exists m :: m in mounts && path <= m {
      return [path];
    }
    result := [];
    if n.Dir? {
      var i := 0;
      while i < |n.children|
        invariant 0 <= i <= |n.children|
        invariant result == VisitChildren(path, n.children[..i], mounts)
      {
        var child := n.children[i];
        assert n.children[..i + 1][..i] == n.children[..i];
        var p := path + [child.name];
        if p !in mounts {
          if child.node.Dir? {
            var below := VisitNode(p, child.node, mounts);
            result := result + below;
          } else {
            result := result + [p];
          }
        }
        i := i + 1;
      }
      assert n.children[..i] == n.children;
    }
  }

  /** The plan is an exact cover: whatever exists at or under the root lies under exactly one source,
      unless it is at or below a mounted descendant or holds one, and then under none. */
  lemma SourcesCoverExactly(root: Path, n: Node, mounts: set<Path>, rel: Path)
    requires Names(root) && (forall m :: m in mounts ==> Names(m))
    requires WellFormed(n) && Exists(n, rel) && Mountable(root, n, Descendants(root, mounts))
    ensures Holding(Visit(root, n, Descendants(root, mounts)), root + rel)
            == if Split(root + rel, Descendants(root, mounts)) then 0 else 1
  {
    forall m | m in Descendants(root, mounts) ensures !(m < root) {
      TextBelowIsBelow(root, m);
    }
    VisitCovers(root, n, Descendants(root, mounts), rel);
  }

  // -- the prefix search ----------------------------------------------------------------------

  /** Text order, by code point. */
  predicate Less(a: string, b: string) {
    b != "" && (a == "" || a[0] < b[0] || (a[0] == b[0] && Less(a[1..], b[1..])))
  }

  predicate SortedTexts(paths: seq<string>) {
    forall i, j :: 0 <= i < j < |paths| ==> !Less(paths[j], paths[i])
  }

  lemma {:induction false} LessTransitive(a: string, b: string, c: string)
    requires Less(a, b) && !Less(c, b)
    ensures Less(a, c)
    decreases |a|
  {
    if a != "" && a[0] == b[0] && c != "" && c[0] == b[0] {
      LessTransitive(a[1..], b[1..], c[1..]);
    }
  }

  lemma {:induction false} ExtensionIsNotLess(prefix: string, s: string)
    requires prefix <= s
    ensures !Less(s, prefix)
    decreases |prefix|
  {
    if prefix != "" {
      ExtensionIsNotLess(prefix[1..], s[1..]);
    }
  }

  /** Texts with a common prefix are contiguous in the order, starting at the prefix itself. */
  lemma {:induction false} PrefixesAreContiguous(prefix: string, x: string, y: string)
    requires prefix <= y && !Less(x, prefix) && !Less(y, x)
    ensures prefix <= x
    decreases |prefix|
  {
    if prefix != "" {
      assert x != "" && x[0] == prefix[0];
      PrefixesAreContiguous(prefix[1..], x[1..], y[1..]);
      assert prefix == [prefix[0]] + prefix[1..] && x == [x[0]] + x[1..];
    }
  }

  /** `bisect_left`. */
  method BisectLeft(paths: seq<string>, key: string) returns (index: nat)
    requires SortedTexts(paths)
    ensures index <= |paths|
    ensures forall i :: 0 <= i < index ==> Less(paths[i], key)
    ensures forall i :: index <= i < |paths| ==> !Less(paths[i], key)
  {
    var lo, hi := 0, |paths|;
    while lo < hi
      invariant 0 <= lo <= hi <= |paths|
      invariant forall i :: 0 <= i < lo ==> Less(paths[i], key)
      invariant forall i :: hi <= i < |paths| ==> !Less(paths[i], key)
    {
      var mid := (lo + hi) / 2;
      if Less(paths[mid], key) {
        forall i | lo <= i < mid ensures Less(paths[i], key) {
          if !Less(paths[i], key) { LessTransitive(paths[mid], key, paths[i]); }
        }
        lo := mid + 1;
      } else {
        forall i | mid < i < hi ensures !Less(paths[i], key) {
          if Less(paths[i], key) { LessTransitive(paths[i], key, paths[mid]); }
        }
        hi := mid;
      }
    }
    index := lo;
  }

  /** `validate_source`: one probe of the sorted mount list finds a mount below the source exactly
      when a scan of the whole list would. */
  method ValidateSource(source: Path, isDir: bool, paths: seq<string>) returns (ok: bool)
    requires SortedTexts(paths)
    ensures !ok <==> isDir && exists i :: 0 <= i < |paths| && Body(source) + "/" <= paths[i]
  {
    var prefix := Body(source) + "/";
    var index := BisectLeft(paths, prefix);
    ok := !(isDir && index < |paths| && prefix <= paths[index]);
    if ok && isDir {
      forall i | 0 <= i < |paths| ensures !(prefix <= paths[i]) {
        if prefix <= paths[i] {
          ExtensionIsNotLess(prefix, paths[i]);
          if index < i {
            PrefixesAreContiguous(prefix, paths[index], paths[i]);
          }
        }
      }
    }
  }
}
