/** The part of a Git repository an accept touches: commits, HEAD, the index and the working tree.
    Contents are opaque; a path that a map does not hold does not exist there. */
module Git {
  import opened Wrappers

  type Path(==, !new) = string
  type Content(==, !new) = string
  type Tree = map<Path, Content>
  type Sha = nat

  datatype Commit = Commit(parent: Option<Sha>, tree: Tree)

  datatype Repo = Repo(commits: map<Sha, Commit>, head: Sha, index: Tree, work: Tree)

  function At(t: Tree, p: Path): Option<Content> {
    if p in t then Some(t[p]) else None
  }

  function HeadTree(r: Repo): Tree
    requires r.head in r.commits
  {
    r.commits[r.head].tree
  }

  /** Every path `git status` mentions, untracked files included. */
  function Dirty(r: Repo): (paths: set<Path>)
    requires r.head in r.commits
    ensures forall p :: p in paths <==> At(r.work, p) != At(r.index, p) || At(r.index, p) != At(HeadTree(r), p)
  {
    set p | p in r.work.Keys + r.index.Keys + HeadTree(r).Keys
            && (At(r.work, p) != At(r.index, p) || At(r.index, p) != At(HeadTree(r), p))
  }

  function Untracked(r: Repo): set<Path> {
    r.work.Keys - r.index.Keys
  }

  /** `git reset --hard HEAD`: tracked paths return to HEAD, untracked files stay behind. */
  function ResetHard(r: Repo): Repo
    requires r.head in r.commits
  {
    var t := HeadTree(r);
    r.(index := t, work := (r.work - (r.index.Keys + t.Keys)) + t)
  }

  function Unlink(r: Repo, p: Path): Repo {
    r.(work := r.work - {p})
  }

  /** The repository exactly at its HEAD. */
  predicate Pristine(r: Repo)
    requires r.head in r.commits
  {
    r.index == HeadTree(r) && r.work == HeadTree(r)
  }

  ghost predicate AgreeOutside(a: Tree, b: Tree, owned: set<Path>) {
    forall p :: p !in owned ==> At(a, p) == At(b, p)
  }

  /** A candidate as the change it makes: new contents, or `None` for a deletion. */
  type Patch = map<Path, Option<Content>>

  function Patched(t: Tree, patch: Patch): (t': Tree)
    ensures forall p :: At(t', p) == if p in patch then patch[p] else At(t, p)
  {
    map p | p in t.Keys + patch.Keys && (if p in patch then patch[p].Some? else true)
          :: if p in patch then patch[p].value else t[p]
  }

  lemma SameEverywhere(a: Tree, b: Tree)
    requires forall p :: At(a, p) == At(b, p)
    ensures a == b
  {
    forall p ensures p in a <==> p in b {
      assert At(a, p) == At(b, p);
    }
    forall p | p in a ensures a[p] == b[p] {
      assert At(a, p) == At(b, p);
    }
  }

  lemma PristineIsClean(r: Repo)
    requires r.head in r.commits
    ensures Pristine(r) <==> Dirty(r) == {}
  {
    if Dirty(r) == {} {
      forall p ensures At(r.work, p) == At(HeadTree(r), p) && At(r.index, p) == At(HeadTree(r), p) {
        assert p !in Dirty(r);
      }
      SameEverywhere(r.work, HeadTree(r));
      SameEverywhere(r.index, HeadTree(r));
    }
  }

  /** When everything dirty is owned, a hard reset changes owned paths only, and what it leaves is
      HEAD's tree plus owned untracked files. */
  lemma ResetTouchesOnlyOwned(r: Repo, owned: set<Path>)
    requires r.head in r.commits && Dirty(r) <= owned
    ensures var r' := ResetHard(r);
            && r'.head == r.head && r'.commits == r.commits
            && r'.index == HeadTree(r)
            && AgreeOutside(r'.work, r.work, owned) && AgreeOutside(r'.index, r.index, owned)
            && OnlyUntracked(r', owned)
  {
    var r' := ResetHard(r);
    forall p | p !in owned ensures At(r'.work, p) == At(r.work, p) && At(r'.index, p) == At(r.index, p) {
      assert p !in Dirty(r);
    }
    forall p | p in Untracked(r') ensures p in owned {
      assert p !in HeadTree(r) && p !in r.index && p in r.work;
      assert p in Dirty(r);
    }
  }

  /** A repository reset to HEAD except for untracked files, all of them owned. */
  ghost predicate OnlyUntracked(r: Repo, owned: set<Path>) {
    && r.head in r.commits && r.index == HeadTree(r)
    && Untracked(r) <= owned
    && forall p :: p in HeadTree(r) ==> At(r.work, p) == At(HeadTree(r), p)
  }

  lemma OnlyUntrackedIsOwned(r: Repo, owned: set<Path>)
    requires OnlyUntracked(r, owned)
    ensures Dirty(r) == Untracked(r) && Dirty(r) <= owned
    ensures Untracked(r) == {} ==> Pristine(r)
  {
    forall p | p in Dirty(r) ensures p in Untracked(r) {
    }
    forall p | p in Untracked(r) ensures p in Dirty(r) {
    }
    PristineIsClean(r);
  }

  /** Removing one untracked file leaves the rest as they were. */
  lemma UnlinkOne(r: Repo, p: Path, owned: set<Path>, start: Tree)
    requires OnlyUntracked(r, owned) && p in Untracked(r) && AgreeOutside(r.work, start, owned)
    ensures OnlyUntracked(Unlink(r, p), owned) && Untracked(Unlink(r, p)) == Untracked(r) - {p}
    ensures AgreeOutside(Unlink(r, p).work, start, owned) && p in owned
  {
    var r' := Unlink(r, p);
    assert r'.work.Keys == r.work.Keys - {p};
    forall q | q in HeadTree(r') ensures At(r'.work, q) == At(HeadTree(r'), q) {
      assert q in r.index;
    }
  }
}
