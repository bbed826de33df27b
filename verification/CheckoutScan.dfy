/**
 What the workspace pruner finds in a directory tree (sandbox-container/src/workspace_prune.rs): the scan
 that decides whether the checkout of an ended task may go, and the tagged caches. A path is the sequence
 of places in the listings on the way.
 */
module CheckoutScan {
  import opened Wrappers
  import opened AsideNames

  const TAG := "CACHEDIR.TAG"
  const SIGNATURE := "Signature: 8a477f597d28d172789f06886806bc55"
  const GIT := ".git"
  const REPO_SEARCH_DEPTH := 8

  /** A file, link or the like (with what reading it gives), or a directory that can be listed or not. */
  datatype Node = Leaf(content: string) | Dir(entries: seq<Entry>, listed: bool)
  datatype Entry = Entry(name: string, node: Node) | Broken

  type Path = seq<nat>

  predicate HasGit(d: Node)
    requires d.Dir?
  {
    exists i :: 0 <= i < |d.entries| && d.entries[i].Entry? && d.entries[i].name == GIT
  }

  predicate IsTag(e: Entry) {
    e.Entry? && e.name == TAG && e.node.Leaf? && SIGNATURE <= e.node.content
  }

  predicate IsCache(d: Node)
    requires d.Dir?
  {
    exists i :: 0 <= i < |d.entries| && IsTag(d.entries[i])
  }

  /** A directory is a cache exactly if it holds a file `CACHEDIR.TAG` that begins with the signature. */
  lemma CacheIff(d: Node)
    requires d.Dir?
    ensures IsCache(d) <==>
              exists i, rest :: 0 <= i < |d.entries| && d.entries[i] == Entry("CACHEDIR.TAG", Leaf(SIGNATURE + rest))
  {
    if IsCache(d) {
      var i :| 0 <= i < |d.entries| && IsTag(d.entries[i]);
      var content := d.entries[i].node.content;
      assert content == SIGNATURE + content[|SIGNATURE|..];
      assert d.entries[i] == Entry("CACHEDIR.TAG", Leaf(SIGNATURE + content[|SIGNATURE|..]));
    }
    if i, rest :| 0 <= i < |d.entries| && d.entries[i] == Entry("CACHEDIR.TAG", Leaf(SIGNATURE + rest)) {
      assert IsTag(d.entries[i]);
    }
  }

  predicate Skippable(e: Entry)
    requires e.Entry? && e.node.Dir?
  {
    IsCache(e.node) || IsAside(e.name)
  }

  datatype Reason = CannotRead | CannotReadEntry | FileOutside | TooDeep | Linked | CannotCheckLinks | InRepo(why: Why)

  datatype Blocker = Blocker(path: Path, reason: Reason)

  datatype Found = Found(repos: seq<Path>, blockers: seq<Blocker>)

  function Join(a: Found, b: Found): Found {
    Found(a.repos + b.repos, a.blockers + b.blockers)
  }

  function Scan(d: Node, base: Path, depth: nat): Found
    requires d.Dir?
    decreases d, |d.entries| + 1
  {
    if HasGit(d) then Found([base], [])
    else if !d.listed then Found([], [Blocker(base, CannotRead)])
    else ScanFrom(d, base, depth, 0)
  }

  /** The scan of the listing from place `i` on. */
  function ScanFrom(d: Node, base: Path, depth: nat, i: nat): Found
    requires d.Dir? && i <= |d.entries|
    decreases d, |d.entries| - i
  {
    if i == |d.entries| then Found([], [])
    else
      var e := d.entries[i];
      if e.Broken? then Found([], [Blocker(base, CannotReadEntry)])
      else if e.node.Leaf? then Found([], [Blocker(base + [i], FileOutside)])
      else if Skippable(e) then ScanFrom(d, base, depth, i + 1)
      else if depth == 0 then Join(Found([], [Blocker(base + [i], TooDeep)]), ScanFrom(d, base, depth, i + 1))
      else Join(Scan(e.node, base + [i], depth - 1), ScanFrom(d, base, depth, i + 1))
  }

  lemma JoinAssoc(a: Found, b: Found, c: Found)
    ensures Join(Join(a, b), c) == Join(a, Join(b, c))
  {
  }

  /** The two vectors the scan appends to. */
  class Findings {
    var repos: seq<Path>
    var out: seq<Blocker>

    constructor ()
      ensures repos == [] && out == []
    {
      repos, out := [], [];
    }

    method ScanInto(d: Node, base: Path, depth: nat)
      requires d.Dir?
      modifies this
      ensures repos == old(repos) + Scan(d, base, depth).repos
      ensures out == old(out) + Scan(d, base, depth).blockers
      decreases d
    {
      if HasGit(d) {
        repos := repos + [base];
        return;
      }
      if !d.listed {
        out := out + [Blocker(base, CannotRead)];
        return;
      }
      ghost var start := Found(repos, out);
      var i := 0;
      while i < |d.entries|
        invariant i <= |d.entries|
        invariant Join(Found(repos, out), ScanFrom(d, base, depth, i)) == Join(start, ScanFrom(d, base, depth, 0))
      {
        var e := d.entries[i];
        ghost var now := Found(repos, out);
        if e.Broken? {
          out := out + [Blocker(base, CannotReadEntry)];
          return;
        }
        if e.node.Leaf? {
          out := out + [Blocker(base + [i], FileOutside)];
          return;
        }
        if !Skippable(e) {
          if depth == 0 {
            out := out + [Blocker(base + [i], TooDeep)];
            JoinAssoc(now, Found([], [Blocker(base + [i], TooDeep)]), ScanFrom(d, base, depth, i + 1));
          } else {
            ScanInto(e.node, base + [i], depth - 1);
            JoinAssoc(now, Scan(e.node, base + [i], depth - 1), ScanFrom(d, base, depth, i + 1));
          }
        }
        i := i + 1;
      }
    }
  }

  // ----- what an empty result means -----

  predicate IsAt(n: Node, q: Path) {
    q == [] || (n.Dir? && q[0] < |n.entries| && n.entries[q[0]].Entry? && IsAt(n.entries[q[0]].node, q[1..]))
  }

  function At(n: Node, q: Path): Node
    requires IsAt(n, q)
  {
    if q == [] then n else At(n.entries[q[0]].node, q[1..])
  }

  /** The entry at the end of a path. */
  function EntryAt(n: Node, q: Path): Entry
    requires q != [] && IsAt(n, q)
  {
    if |q| == 1 then n.entries[q[0]] else EntryAt(n.entries[q[0]].node, q[1..])
  }

  predicate LeafAt(n: Node, q: Path) {
    IsAt(n, q) && At(n, q).Leaf?
  }

  /** A directory that is in no repository, cache or set-aside directory, except that it may be a
      repository itself. */
  predicate Reached(n: Node, q: Path) {
    n.Dir? && (q == [] ||
      (!HasGit(n) && q[0] < |n.entries| && n.entries[q[0]].Entry? && n.entries[q[0]].node.Dir?
       && !Skippable(n.entries[q[0]]) && Reached(n.entries[q[0]].node, q[1..])))
  }

  lemma {:induction false} ReachedIsAt(n: Node, q: Path)
    requires Reached(n, q)
    ensures IsAt(n, q) && At(n, q).Dir?
  {
    if q != [] {
      ReachedIsAt(n.entries[q[0]].node, q[1..]);
    }
  }

  /** A repository, or a directory that holds nothing but directories. */
  predicate Plain(m: Node) {
    m.Dir? && (HasGit(m) || (m.listed && forall i | 0 <= i < |m.entries| :: m.entries[i].Entry? && m.entries[i].node.Dir?))
  }

  ghost predicate Clean(n: Node, depth: nat) {
    forall q | Reached(n, q) :: FineAt(n, depth, q)
  }

  predicate FineAt(n: Node, depth: nat, q: Path) {
    |q| <= depth && IsAt(n, q) && Plain(At(n, q))
  }

  predicate EntryFine(d: Node, base: Path, depth: nat, i: nat)
    requires d.Dir? && i < |d.entries|
  {
    var e := d.entries[i];
    e.Entry? && e.node.Dir? && (Skippable(e) || (depth > 0 && Scan(e.node, base + [i], depth - 1).blockers == []))
  }

  lemma {:induction false} FromIff(d: Node, base: Path, depth: nat, i: nat)
    requires d.Dir? && i <= |d.entries|
    ensures ScanFrom(d, base, depth, i).blockers == [] <==> forall j: nat | i <= j < |d.entries| :: EntryFine(d, base, depth, j)
    decreases |d.entries| - i
  {
    if i < |d.entries| {
      FromIff(d, base, depth, i + 1);
      FromStep(d, base, depth, i);
    }
  }

  lemma FromStep(d: Node, base: Path, depth: nat, i: nat)
    requires d.Dir? && i < |d.entries|
    ensures ScanFrom(d, base, depth, i).blockers == []
            <==> EntryFine(d, base, depth, i) && ScanFrom(d, base, depth, i + 1).blockers == []
  {
  }

  /** The scan reports nothing exactly if every directory outside repositories, caches and set-aside
      directories is at most `depth` deep, readable, and holds directories only. */
  lemma {:induction false} ScanIff(d: Node, base: Path, depth: nat)
    requires d.Dir?
    ensures Scan(d, base, depth).blockers == [] <==> Clean(d, depth)
    decreases d
  {
    if HasGit(d) {
      assert forall q | Reached(d, q) :: q == [] && At(d, q) == d;
    } else {
      FromIff(d, base, depth, 0);
      if Scan(d, base, depth).blockers == [] {
        forall q | Reached(d, q) ensures |q| <= depth && IsAt(d, q) && Plain(At(d, q)) {
          FineBelow(d, base, depth, q);
        }
      }
      if Clean(d, depth) {
        RootIsPlain(d, depth);
        forall i: nat | i < |d.entries| ensures EntryFine(d, base, depth, i) {
          CleanAt(d, base, depth, i);
        }
      }
    }
  }

  lemma {:induction false} FineBelow(d: Node, base: Path, depth: nat, q: Path)
    requires d.Dir? && !HasGit(d) && d.listed && Reached(d, q)
    requires forall i: nat | i < |d.entries| :: EntryFine(d, base, depth, i)
    ensures |q| <= depth && IsAt(d, q) && Plain(At(d, q))
    decreases d, 0
  {
    if q == [] {
      forall i: nat | i < |d.entries| ensures d.entries[i].Entry? && d.entries[i].node.Dir? {
        assert EntryFine(d, base, depth, i);
      }
    } else {
      var i := q[0];
      assert EntryFine(d, base, depth, i);
      var child := d.entries[i].node;
      ScanIff(child, base + [i], depth - 1);
      assert Clean(child, depth - 1);
      assert Reached(child, q[1..]);
    }
  }

  lemma {:induction false} CleanAt(d: Node, base: Path, depth: nat, i: nat)
    requires d.Dir? && !HasGit(d) && Clean(d, depth) && i < |d.entries|
    ensures EntryFine(d, base, depth, i)
    decreases d, 1
  {
    RootIsPlain(d, depth);
    if !Skippable(d.entries[i]) {
      CleanChild(d, depth, i);
      CleanBelow(d, base, depth, i);
    }
    EntryIsFine(d, base, depth, i);
  }

  lemma {:induction false} CleanBelow(d: Node, base: Path, depth: nat, i: nat)
    requires Enters(d, i) && depth > 0 && Clean(d.entries[i].node, depth - 1)
    ensures Scan(d.entries[i].node, base + [i], depth - 1).blockers == []
    decreases d, 0
  {
    ScanIff(d.entries[i].node, base + [i], depth - 1);
  }

  lemma EntryIsFine(d: Node, base: Path, depth: nat, i: nat)
    requires Plain(d) && !HasGit(d) && i < |d.entries|
    requires Enters(d, i) ==> depth > 0 && Scan(d.entries[i].node, base + [i], depth - 1).blockers == []
    ensures EntryFine(d, base, depth, i)
  {
  }

  lemma RootIsPlain(d: Node, depth: nat)
    requires d.Dir? && Clean(d, depth)
    ensures Plain(d)
  {
    assert Reached(d, []) && At(d, []) == d;
  }

  /** Going into a directory that the scan goes into. */
  predicate Enters(d: Node, i: nat) {
    d.Dir? && !HasGit(d) && i < |d.entries| && d.entries[i].Entry? && d.entries[i].node.Dir? && !Skippable(d.entries[i])
  }

  lemma ReachedCons(d: Node, i: nat, q: Path)
    requires Enters(d, i)
    ensures Reached(d, [i] + q) <==> Reached(d.entries[i].node, q)
    ensures IsAt(d, [i] + q) <==> IsAt(d.entries[i].node, q)
    ensures IsAt(d, [i] + q) ==> At(d, [i] + q) == At(d.entries[i].node, q)
  {
    var p := [i] + q;
    assert p[0] == i && p[1..] == q;
  }

  lemma CleanChild(d: Node, depth: nat, i: nat)
    requires Enters(d, i) && Clean(d, depth)
    ensures depth > 0 && Clean(d.entries[i].node, depth - 1)
  {
    var child := d.entries[i].node;
    ReachedCons(d, i, []);
    assert Reached(child, []) && |[i] + []| == 1;
    forall q | Reached(child, q) ensures |q| <= depth - 1 && IsAt(child, q) && Plain(At(child, q)) {
      ReachedCons(d, i, q);
      assert |[i] + q| == |q| + 1;
    }
  }

  // ----- what is inspected -----

  /** The repositories the scan found, relative to `base`. */
  ghost predicate IsRepo(d: Node, base: Path, r: Path) {
    exists q :: r == base + q && Reached(d, q) && IsAt(d, q) && At(d, q).Dir? && HasGit(At(d, q))
  }

  lemma {:induction false} FromRepos(d: Node, base: Path, depth: nat, i: nat, r: Path)
    requires d.Dir? && !HasGit(d) && i <= |d.entries| && ScanFrom(d, base, depth, i).blockers == []
    ensures r in ScanFrom(d, base, depth, i).repos <==>
              exists j: nat :: i <= j && EntryHolds(d, base, depth, j, r)
    decreases |d.entries| - i
  {
    if i < |d.entries| {
      FromRepos(d, base, depth, i + 1, r);
      assert r in ScanFrom(d, base, depth, i).repos <==>
          EntryHolds(d, base, depth, i, r) || r in ScanFrom(d, base, depth, i + 1).repos;
    }
  }

  predicate EntryHolds(d: Node, base: Path, depth: nat, j: nat, r: Path) {
    Enters(d, j) && depth > 0 && r in Scan(d.entries[j].node, base + [j], depth - 1).repos
  }

  /** Below `d`, not counting `d` itself. */
  ghost predicate IsRepoUnder(d: Node, base: Path, j: nat, r: Path) {
    Enters(d, j) && IsRepo(d.entries[j].node, base + [j], r)
  }

  lemma RepoSplits(d: Node, base: Path, r: Path)
    requires d.Dir? && !HasGit(d)
    ensures IsRepo(d, base, r) <==> exists j: nat :: IsRepoUnder(d, base, j, r)
  {
    if IsRepo(d, base, r) {
      var q :| r == base + q && Reached(d, q) && IsAt(d, q) && At(d, q).Dir? && HasGit(At(d, q));
      var j, p := q[0], q[1..];
      assert q == [j] + p && r == base + [j] + p;
      ReachedCons(d, j, p);
      assert IsRepoUnder(d, base, j, r);
    }
    if j: nat :| IsRepoUnder(d, base, j, r) {
      var child := d.entries[j].node;
      var p :| r == base + [j] + p && Reached(child, p) && IsAt(child, p) && At(child, p).Dir? && HasGit(At(child, p));
      ReachedCons(d, j, p);
      assert r == base + ([j] + p);
    }
  }

  /** If nothing is in the way, the repositories found are all there are outside one another, caches and
      set-aside directories. */
  lemma {:induction false} ReposIff(d: Node, base: Path, depth: nat, r: Path)
    requires d.Dir? && Scan(d, base, depth).blockers == []
    ensures r in Scan(d, base, depth).repos <==> IsRepo(d, base, r)
    decreases d
  {
    if HasGit(d) {
      RootRepo(d, base, r);
    } else {
      FromRepos(d, base, depth, 0, r);
      FromIff(d, base, depth, 0);
      RepoSplits(d, base, r);
      forall j: nat | Enters(d, j) ensures EntryHolds(d, base, depth, j, r) <==> IsRepoUnder(d, base, j, r) {
        assert EntryFine(d, base, depth, j);
        ReposIff(d.entries[j].node, base + [j], depth - 1, r);
      }
    }
  }

  lemma RootRepo(d: Node, base: Path, r: Path)
    requires d.Dir? && HasGit(d)
    ensures IsRepo(d, base, r) <==> r == base
  {
    assert base + [] == base;
    assert Reached(d, []) && IsAt(d, []) && At(d, []) == d;
  }

  /** A file lies in a repository that was found, in a cache, or in a set-aside directory. */
  ghost predicate Covered(d: Node, base: Path, repos: seq<Path>, q: Path) {
    exists k: nat :: k <= |q| && CoveredBy(d, base, repos, q, k)
  }

  predicate CoveredBy(d: Node, base: Path, repos: seq<Path>, q: Path, k: nat)
    requires k <= |q|
  {
    base + q[..k] in repos
    || (k > 0 && IsAt(d, q[..k]) && EntryAt(d, q[..k]).Entry? && EntryAt(d, q[..k]).node.Dir? && Skippable(EntryAt(d, q[..k])))
  }

  /** The scan is sound on every tree: if it reports nothing, every file is covered. */
  lemma {:induction false} EveryFileIsCovered(d: Node, base: Path, depth: nat, q: Path)
    requires d.Dir? && Scan(d, base, depth).blockers == [] && LeafAt(d, q)
    ensures Covered(d, base, Scan(d, base, depth).repos, q)
    decreases d
  {
    var repos := Scan(d, base, depth).repos;
    if HasGit(d) {
      assert base + q[..0] == base;
      assert CoveredBy(d, base, repos, q, 0);
    } else {
      var i := q[0];
      FromIff(d, base, depth, 0);
      assert EntryFine(d, base, depth, i);
      var e := d.entries[i];
      if Skippable(e) {
        assert q[..1] == [i] && q[..1][1..] == [] && EntryAt(d, q[..1]) == e;
        assert CoveredBy(d, base, repos, q, 1);
      } else {
        EveryFileIsCovered(e.node, base + [i], depth - 1, q[1..]);
        ChildCovers(d, base, depth, q);
      }
    }
  }

  lemma ChildCovers(d: Node, base: Path, depth: nat, q: Path)
    requires d.Dir? && q != [] && Enters(d, q[0]) && depth > 0 && Scan(d, base, depth).blockers == []
    requires Covered(d.entries[q[0]].node, base + [q[0]], Scan(d.entries[q[0]].node, base + [q[0]], depth - 1).repos, q[1..])
    ensures Covered(d, base, Scan(d, base, depth).repos, q)
  {
    var i, child := q[0], d.entries[q[0]].node;
    var found := Scan(child, base + [i], depth - 1).repos;
    var k: nat :| k <= |q[1..]| && CoveredBy(child, base + [i], found, q[1..], k);
    var p := q[1..][..k];
    assert q[..k + 1] == [i] + p && base + ([i] + p) == base + [i] + p;
    ReachedCons(d, i, p);
    if base + [i] + p in found {
      FromRepos(d, base, depth, 0, base + [i] + p);
      assert EntryHolds(d, base, depth, i, base + [i] + p);
    } else {
      assert ([i] + p)[1..] == p;
    }
    assert CoveredBy(d, base, Scan(d, base, depth).repos, q, k + 1);
  }

  // ----- the verdict on a checkout -----

  datatype Why = NotPlain | InProgress | Unpushed | CannotCount | Dirty | CannotReadStatus

  /** What is looked at in a repository: its `.git`, the operations under way, the commits on no remote,
      and for each line of its status whether it names an untracked cache. */
  datatype Facts = Facts(gitIsDir: bool, inProgress: bool, unpushed: Option<nat>, status: Option<seq<bool>>)

  function RepoBlocker(f: Facts): (r: Option<Why>)
    ensures r == None <==>
              f.gitIsDir && !f.inProgress && f.unpushed == Some(0) && f.status.Some?
              && forall i | 0 <= i < |f.status.value| :: f.status.value[i]
  {
    if !f.gitIsDir then Some(NotPlain)
    else if f.inProgress then Some(InProgress)
    else if f.unpushed.None? then Some(CannotCount)
    else if f.unpushed.value > 0 then Some(Unpushed)
    else if f.status.None? then Some(CannotReadStatus)
    else if exists i :: 0 <= i < |f.status.value| && !f.status.value[i] then Some(Dirty)
    else None
  }

  /** A repository that is in no other one, no cache and no set-aside directory. */
  predicate IsRootRepo(task: Node, q: Path) {
    Reached(task, q) && IsAt(task, q) && At(task, q).Dir? && HasGit(At(task, q))
  }

  lemma RootRepos(task: Node, q: Path)
    ensures IsRepo(task, [], q) <==> IsRootRepo(task, q)
  {
    var none: Path := [];
    assert none + q == q;
    if IsRepo(task, [], q) {
      var p :| q == none + p && Reached(task, p) && IsAt(task, p) && At(task, p).Dir? && HasGit(At(task, p));
      assert p == q;
    }
  }

  /** What the look at the links in `repos` says. */
  datatype Link = NoLink | LinkInto | LinkError

  /** Nothing speaks against deleting the checkout. */
  ghost predicate MayGo(task: Node, link: Link, facts: Path -> Facts, depth: nat) {
    && link == NoLink && Clean(task, depth)
    && forall q | IsRootRepo(task, q) :: RepoBlocker(facts(q)) == None
  }

  /** `checkout_blockers`: the result is empty exactly if no link points into the checkout, everything
      outside its repositories, caches and set-aside directories is directories that were all looked into,
      and every repository holds no work. */
  method CheckoutBlockers(task: Node, link: Link, facts: Path -> Facts) returns (out: seq<Blocker>)
    requires task.Dir?
    ensures out == [] <==> MayGo(task, link, facts, REPO_SEARCH_DEPTH)
  {
    out := BlockersWithin(task, link, facts, REPO_SEARCH_DEPTH);
  }

  predicate AllClear(repos: seq<Path>, facts: Path -> Facts) {
    forall i | 0 <= i < |repos| :: RepoBlocker(facts(repos[i])) == None
  }

  method Inspect(repos: seq<Path>, facts: Path -> Facts) returns (out: seq<Blocker>)
    ensures out == [] <==> AllClear(repos, facts)
  {
    out := [];
    for i := 0 to |repos|
      invariant out == [] <==> forall j | 0 <= j < i :: RepoBlocker(facts(repos[j])) == None
    {
      var why := RepoBlocker(facts(repos[i]));
      if why.Some? {
        out := out + [Blocker(repos[i], InRepo(why.value))];
      }
    }
  }

  method BlockersWithin(task: Node, link: Link, facts: Path -> Facts, depth: nat) returns (out: seq<Blocker>)
    requires task.Dir?
    ensures out == [] <==> MayGo(task, link, facts, depth)
  {
    var f := new Findings();
    match link {
      case NoLink =>
      case LinkInto => f.out := f.out + [Blocker([], Linked)];
      case LinkError => f.out := f.out + [Blocker([], CannotCheckLinks)];
    }
    ghost var first := f.out;
    f.ScanInto(task, [], depth);
    assert f.repos == Scan(task, [], depth).repos && f.out == first + Scan(task, [], depth).blockers;
    var more := Inspect(f.repos, facts);
    Verdict(task, link, facts, depth);
    out := f.out + more;
  }

  lemma Verdict(task: Node, link: Link, facts: Path -> Facts, depth: nat)
    requires task.Dir?
    ensures MayGo(task, link, facts, depth) <==>
              link == NoLink && Scan(task, [], depth).blockers == [] && AllClear(Scan(task, [], depth).repos, facts)
  {
    ScanIff(task, [], depth);
    if Scan(task, [], depth).blockers == [] {
      Inspected(task, depth, facts);
    }
  }

  lemma Inspected(task: Node, depth: nat, facts: Path -> Facts)
    requires task.Dir? && Scan(task, [], depth).blockers == []
    ensures AllClear(Scan(task, [], depth).repos, facts)
            <==> forall q | IsRootRepo(task, q) :: RepoBlocker(facts(q)) == None
  {
    var repos := Scan(task, [], depth).repos;
    forall q: Path ensures q in repos <==> IsRootRepo(task, q) {
      ReposIff(task, [], depth, q);
      RootRepos(task, q);
    }
    assert forall j | 0 <= j < |repos| :: repos[j] in repos;
  }
}
