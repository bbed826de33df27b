/**
 Finding the tagged caches of a task (sandbox-container/src/workspace_prune.rs: `cache_dirs`).
 */
module CacheDirs {
  import opened CheckoutScan

  /** An entry that is looked at: a directory, but not `.git`. */
  predicate Walks(d: Node, i: nat) {
    d.Dir? && d.listed && i < |d.entries| && d.entries[i].Entry? && d.entries[i].node.Dir? && d.entries[i].name != GIT
  }

  /** What the listing of `d` gives from place `i` on. */
  function ListFrom(d: Node, base: Path, depth: nat, i: nat): seq<Path>
    requires d.Dir? && i <= |d.entries|
    decreases d, |d.entries| - i
  {
    if i == |d.entries| then []
    else EntryList(d, base, depth, i) + ListFrom(d, base, depth, i + 1)
  }

  function EntryList(d: Node, base: Path, depth: nat, i: nat): seq<Path>
    requires d.Dir? && i < |d.entries|
    decreases d, |d.entries| - i, 0
  {
    if !Walks(d, i) then []
    else if IsCache(d.entries[i].node) then [base + [i]]
    else if depth > 1 then ListFrom(d.entries[i].node, base + [i], depth - 1, 0)
    else []
  }

  method Find(root: Node, base: Path, depth: nat) returns (out: seq<Path>)
    requires root.Dir?
    ensures out == ListFrom(root, base, depth, 0)
    decreases root
  {
    out := [];
    var i := 0;
    while i < |root.entries|
      invariant i <= |root.entries| && out + ListFrom(root, base, depth, i) == ListFrom(root, base, depth, 0)
    {
      ghost var before := out;
      if Walks(root, i) {
        var e := root.entries[i];
        if IsCache(e.node) {
          out := out + [base + [i]];
        } else if depth > 1 {
          var more := Find(e.node, base + [i], depth - 1);
          out := out + more;
        }
      }
      assert out == before + EntryList(root, base, depth, i);
      i := i + 1;
    }
  }

  // ----- what is found -----

  /** The way `q` goes through listed directories and never into `.git`. */
  predicate Way(d: Node, q: Path) {
    q == [] || (Walks(d, q[0]) && Way(d.entries[q[0]].node, q[1..]))
  }

  function End(d: Node, q: Path): Node
    requires Way(d, q)
  {
    if q == [] then d else End(d.entries[q[0]].node, q[1..])
  }

  predicate CacheAt(d: Node, q: Path) {
    Way(d, q) && End(d, q).Dir? && IsCache(End(d, q))
  }

  /** A tagged directory, at most `depth` deep and not inside another one. */
  ghost predicate Outermost(d: Node, q: Path, depth: nat) {
    0 < |q| <= depth && CacheAt(d, q) && forall k | 0 < k < |q| :: !CacheAt(d, q[..k])
  }

  lemma WayCons(d: Node, i: nat, q: Path)
    requires Walks(d, i)
    ensures Way(d, [i] + q) <==> Way(d.entries[i].node, q)
    ensures CacheAt(d, [i] + q) <==> CacheAt(d.entries[i].node, q)
  {
    assert ([i] + q)[0] == i && ([i] + q)[1..] == q;
  }

  lemma OutermostCons(d: Node, i: nat, q: Path, depth: nat)
    requires Walks(d, i) && depth > 0
    ensures Outermost(d, [i] + q, depth) <==>
              if IsCache(d.entries[i].node) then q == [] else depth > 1 && Outermost(d.entries[i].node, q, depth - 1)
  {
    var child := d.entries[i].node;
    WayCons(d, i, []);
    WayCons(d, i, q);
    assert CacheAt(child, []) <==> IsCache(child);
    if q != [] {
      assert ([i] + q)[..1] == [i] + [];
      forall k | 0 < k < |q| ensures CacheAt(d, ([i] + q)[..k + 1]) <==> CacheAt(child, q[..k]) {
        assert ([i] + q)[..k + 1] == [i] + q[..k];
        WayCons(d, i, q[..k]);
      }
      if Outermost(d, [i] + q, depth) {
        assert !CacheAt(d, ([i] + q)[..1]);
        forall k | 0 < k < |q| ensures !CacheAt(child, q[..k]) {
          assert !CacheAt(d, ([i] + q)[..k + 1]);
        }
      }
      if !IsCache(child) && Outermost(child, q, depth - 1) {
        forall k | 0 < k < |[i] + q| ensures !CacheAt(d, ([i] + q)[..k]) {
          var m := k - 1;
          if m > 0 {
            assert CacheAt(d, ([i] + q)[..m + 1]) <==> CacheAt(child, q[..m]);
          }
        }
      }
    }
  }

  /** Exactly the outermost caches are found. */
  lemma {:induction false} FoundIff(d: Node, base: Path, depth: nat, i: nat, q: Path)
    requires d.Dir? && i <= |d.entries| && depth > 0
    ensures base + q in ListFrom(d, base, depth, i) <==> Outermost(d, q, depth) && q[0] >= i
    decreases d, |d.entries| - i
  {
    if i == |d.entries| {
    } else {
      FoundIff(d, base, depth, i + 1, q);
      EntryFound(d, base, depth, i, q);
    }
  }

  lemma {:induction false} EntryFound(d: Node, base: Path, depth: nat, i: nat, q: Path)
    requires d.Dir? && i < |d.entries| && depth > 0
    ensures base + q in EntryList(d, base, depth, i) <==> Outermost(d, q, depth) && q[0] == i
    decreases d, |d.entries| - i, 0
  {
    StartsWith(d, base, depth, i);
    if base + q in EntryList(d, base, depth, i) {
      assert (base + q)[|base|] == (base + [i])[|base|] == i;
    }
    if Walks(d, i) {
      if q != [] && q[0] == i {
        var p := q[1..];
        assert q == [i] + p && base + q == base + [i] + p;
        OutermostCons(d, i, p, depth);
        if IsCache(d.entries[i].node) {
          assert base + q == base + [i] <==> p == [];
        } else if depth > 1 {
          FoundIff(d.entries[i].node, base + [i], depth - 1, 0, p);
        }
      }
    }
  }

  /** What comes from entry `i` lies under entry `i`. */
  lemma {:induction false} StartsWith(d: Node, base: Path, depth: nat, i: nat)
    requires d.Dir? && i < |d.entries|
    ensures forall p | p in EntryList(d, base, depth, i) :: base + [i] <= p
    decreases d, |d.entries| - i, 0
  {
    if Walks(d, i) && !IsCache(d.entries[i].node) && depth > 1 {
      AllStartWith(d.entries[i].node, base + [i], depth - 1, 0);
    }
  }

  lemma {:induction false} AllStartWith(d: Node, base: Path, depth: nat, i: nat)
    requires d.Dir? && i <= |d.entries|
    ensures forall p | p in ListFrom(d, base, depth, i) :: base <= p
    decreases d, |d.entries| - i
  {
    if i < |d.entries| {
      StartsWith(d, base, depth, i);
      AllStartWith(d, base, depth, i + 1);
    }
  }

  /** None of the directories found contains another. */
  lemma NoneContainsAnother(d: Node, depth: nat, a: Path, b: Path)
    requires d.Dir? && depth > 0 && a in ListFrom(d, [], depth, 0) && b in ListFrom(d, [], depth, 0) && a <= b
    ensures a == b
  {
    var none: Path := [];
    assert none + a == a && none + b == b;
    FoundIff(d, [], depth, 0, a);
    FoundIff(d, [], depth, 0, b);
    assert a == b[..|a|];
  }
}
