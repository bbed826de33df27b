/**
 One pass of the workspace pruner (sandbox-container/src/workspace_prune.rs: `prune_pass` and its phases)
 while steps start and end. Phase 0 sweeps leftovers; phases 1 to 4 are the caches of idle tasks, whole
 checkouts, sccache files and shared target directories.
 */
module WorkspacePrune {
  import opened CheckoutScan

  type Task = string

  /** A cache of a task: whether it may be taken at all, and whether moving and deleting it succeed. */
  datatype Cache = Cache(takeable: bool, moves: bool, deletes: bool)

  /** Candidates of the phases, in the order of the phase, with what the file system says of each. */
  datatype Idle = Idle(task: Task, caches: seq<Cache>)
  datatype Checkout = Checkout(
    task: Task, sameDev: bool, tree: Node, link: Link, facts: Path -> Facts, moves: bool, deletes: bool)
  datatype Shared = Shared(dir: string, sameDev: bool, moves: bool, deletes: bool)

  /** The whole workspace as the listings of the phases will find it. */
  datatype Workspace = Workspace(
    leftovers: seq<bool>, tasks: seq<Idle>, checkouts: seq<Checkout>, sccache: seq<bool>, shared: seq<Shared>)

  /** How far a phase is: how many candidates it has, how many it got to. */
  datatype Phase = Phase(listed: nat, tried: nat)

  type Progress = map<nat, Phase>

  predicate Exhausted(p: Progress, phase: nat) {
    phase in p && p[phase].tried == p[phase].listed
  }

  predicate ExhaustedBelow(p: Progress, phase: nat) {
    forall j: nat | j < phase :: Exhausted(p, j)
  }

  lemma OthersStay(p: Progress, phase: nat, now: Phase)
    ensures ExhaustedBelow(p, phase) ==> ExhaustedBelow(p[phase := now], phase)
  {
    if ExhaustedBelow(p, phase) {
      var after := p[phase := now];
      forall j: nat | j < phase ensures Exhausted(after, j) {
        assert Exhausted(p, j);
      }
    }
  }

  /** Something of the phase's candidate `at` deleted, and how far the phases were then. */
  datatype Removal = Removal(phase: nat, at: nat, progress: Progress)

  /** A look at the free space: its answer, and how far the phases were. */
  datatype Look = Look(low: bool, progress: Progress)

  /** A directory renamed aside, and whether it was eligible and the registry allowed it at that moment. */
  datatype Move = Move(phase: nat, allowed: bool)

  /** The disk, the step registry and the stop signal, which change at any time unless a lock is held, and
      a record of what the pass does. On a `quiet` disk nobody else writes, so the free space only grows. In a
      `still` workspace nothing is in use, nobody asks to stop, and the disk stays as full as it was. */
  class World {
    const quiet: bool
    const still: bool
    var low: bool
    var stopped: bool
    var busy: set<Task>
    var protectedTasks: set<Task>
    var linked: set<Task>
    var building: set<string>
    ghost var progress: Progress
    ghost var looks: seq<Look>
    ghost var removals: seq<Removal>
    ghost var moves: seq<Move>

    constructor (quiet: bool, still: bool, low: bool)
      ensures this.quiet == quiet && (Still() <==> still && low) && progress == map[] && removals == [] && moves == [] && looks == []
    {
      this.quiet, this.still, this.low, stopped := quiet, still, low, false;
      busy, protectedTasks, linked, building := {}, {}, {}, {};
      progress, looks, removals, moves := map[], [], [], [];
    }

    /** The disk is low and stays so, and nothing stands in the way. */
    predicate Still()
      reads this
    {
      still && low && !stopped && busy == {} && protectedTasks == {} && linked == {} && building == {}
    }

    /** Time passes. */
    method Others()
      modifies this`low, this`stopped, this`busy, this`protectedTasks, this`linked, this`building
      ensures old(stopped) ==> stopped
      ensures quiet && !old(low) ==> !low
      ensures old(Still()) ==> Still()
    {
      if still {
        return;
      }
      var l, s := *, *;
      low := if quiet then low && l else l;
      stopped := stopped || s;
      busy, protectedTasks, linked, building := *, *, *, *;
    }

    method Low() returns (b: bool)
      modifies this`low, this`stopped, this`busy, this`protectedTasks, this`linked, this`building, this`looks
      ensures b == low && looks == old(looks) + [Look(b, progress)]
      ensures old(stopped) ==> stopped
      ensures quiet && !old(low) ==> !low
      ensures old(Still()) ==> b && Still()
    {
      Others();
      looks := looks + [Look(low, progress)];
      return low;
    }

    method Stopped() returns (b: bool)
      modifies this`low, this`stopped, this`busy, this`protectedTasks, this`linked, this`building
      ensures b == stopped && (old(stopped) ==> stopped)
      ensures quiet && !old(low) ==> !low
      ensures old(Still()) ==> !b && Still()
    {
      Others();
      return stopped;
    }

    /** A phase made its list. */
    ghost method List(phase: nat, n: nat)
      modifies this`progress
      ensures progress == old(progress)[phase := Phase(n, 0)]
      ensures ExhaustedBelow(old(progress), phase) ==> ExhaustedBelow(progress, phase)
    {
      OthersStay(progress, phase, Phase(n, 0));
      progress := progress[phase := Phase(n, 0)];
    }

    ghost method Try(phase: nat)
      requires phase in progress
      modifies this`progress
      ensures progress == old(progress)[phase := Phase(old(progress)[phase].listed, old(progress)[phase].tried + 1)]
      ensures ExhaustedBelow(old(progress), phase) ==> ExhaustedBelow(progress, phase)
    {
      OthersStay(progress, phase, Phase(progress[phase].listed, progress[phase].tried + 1));
      progress := progress[phase := Phase(progress[phase].listed, progress[phase].tried + 1)];
    }

    /** Renames a directory of a task, or a shared target directory, at this very moment. */
    method MoveAside(phase: nat, name: string, ghost eligible: bool, succeeds: bool) returns (ok: bool)
      modifies this`moves
      ensures ok == succeeds
      ensures moves == old(moves) + [Move(phase, MayMove(phase, name) && eligible)]
    {
      moves := moves + [Move(phase, MayMove(phase, name) && eligible)];
      return succeeds;
    }

    predicate MayMove(phase: nat, name: string)
      reads this
    {
      match phase
      case 1 => name !in busy
      case 2 => name !in protectedTasks && name !in linked
      case _ => name !in building
    }

    method Delete(phase: nat, at: nat, succeeds: bool) returns (n: nat)
      modifies this`removals
      ensures n == (if succeeds then 1 else 0)
      ensures removals == if succeeds then old(removals) + [Removal(phase, at, progress)] else old(removals)
    {
      if succeeds {
        removals := removals + [Removal(phase, at, progress)];
        return 1;
      }
      return 0;
    }

    /** The record so far is as it should be. */
    ghost predicate Orderly()
      reads this
    {
      && AllDeserved(removals, looks, quiet)
      && (forall i | 0 <= i < |moves| :: moves[i].allowed)
    }

    /** The pass is in `phase`, or may yet come to it. */
    ghost predicate In(phase: nat)
      reads this
    {
      Orderly() && phase in progress
      && (quiet ==> ExhaustedBelow(progress, phase) && SeenLow(looks, phase))
    }

    /** The pass goes on only if the phases below are exhausted. */
    ghost predicate Through(phase: nat)
      reads this
    {
      Orderly() && (quiet && low && !stopped ==> ExhaustedBelow(progress, phase))
    }
  }

  /** A removal is of the last candidate tried, and in phases 1 to 4 the disk was found low when just the
      candidates before it had been tried. If nobody else writes to the disk, all candidates of the earlier
      phases had been tried, too, and after that the disk had been found low still. */
  ghost predicate Deserved(r: Removal, looks: seq<Look>, quiet: bool) {
    && r.phase in r.progress && r.progress[r.phase].tried == r.at + 1 <= r.progress[r.phase].listed
    && (r.phase > 0 ==> LowAt(looks, r.phase, Phase(r.progress[r.phase].listed, r.at)))
    && (quiet ==> ExhaustedBelow(r.progress, r.phase) && SeenLow(looks, r.phase))
  }

  /** A look found the disk low when the phase was just there. */
  ghost predicate LowAt(looks: seq<Look>, phase: nat, there: Phase) {
    exists i :: 0 <= i < |looks| && LooksLow(looks[i], phase, there)
  }

  predicate LooksLow(l: Look, phase: nat, there: Phase) {
    l.low && phase in l.progress && l.progress[phase] == there
  }

  predicate StillLow(l: Look, phase: nat) {
    l.low && ExhaustedBelow(l.progress, phase)
  }

  ghost predicate SeenLow(looks: seq<Look>, phase: nat) {
    exists i :: 0 <= i < |looks| && StillLow(looks[i], phase)
  }

  ghost predicate AllDeserved(removals: seq<Removal>, looks: seq<Look>, quiet: bool) {
    forall i | 0 <= i < |removals| :: Deserved(removals[i], looks, quiet)
  }

  lemma LowAtStays(looks: seq<Look>, l: Look, phase: nat, there: Phase)
    requires LowAt(looks, phase, there)
    ensures LowAt(looks + [l], phase, there)
  {
    var i :| 0 <= i < |looks| && LooksLow(looks[i], phase, there);
    assert (looks + [l])[i] == looks[i];
  }

  lemma SeenStays(looks: seq<Look>, l: Look, phase: nat)
    requires SeenLow(looks, phase)
    ensures SeenLow(looks + [l], phase)
  {
    var i :| 0 <= i < |looks| && StillLow(looks[i], phase);
    assert (looks + [l])[i] == looks[i];
  }

  lemma DeservedStays(removals: seq<Removal>, looks: seq<Look>, l: Look, quiet: bool)
    requires AllDeserved(removals, looks, quiet)
    ensures AllDeserved(removals, looks + [l], quiet)
  {
    forall i | 0 <= i < |removals| ensures Deserved(removals[i], looks + [l], quiet) {
      var r := removals[i];
      assert Deserved(r, looks, quiet);
      if r.phase > 0 {
        LowAtStays(looks, l, r.phase, Phase(r.progress[r.phase].listed, r.at));
      }
      if quiet {
        SeenStays(looks, l, r.phase);
      }
    }
  }

  /** Before `if low() && !stopped()`: whether the next phase is entered, with its list made. */
  method Gate(w: World, phase: nat, n: nat) returns (enter: bool)
    requires w.Through(phase)
    modifies w
    ensures enter ==> w.In(phase) && w.progress == old(w.progress)[phase := Phase(n, 0)]
    ensures !enter ==> w.Through(phase + 1)
    ensures old(w.Still()) ==> enter && w.Still()
    ensures w.removals == old(w.removals)
  {
    ghost var looks := w.looks;
    var low := w.Low();
    DeservedStays(w.removals, looks, w.looks[|looks|], w.quiet);
    if !low {
      return false;
    }
    var stopped := w.Stopped();
    enter := !stopped;
    if enter {
      assert w.quiet ==> ExhaustedBelow(w.progress, phase) && StillLow(w.looks[|looks|], phase);
      w.List(phase, n);
    }
  }

  /** The check at the head of each loop. */
  method GoesOn(w: World, phase: nat) returns (on: bool)
    requires w.In(phase)
    modifies w
    ensures w.In(phase) && w.progress == old(w.progress) && w.removals == old(w.removals)
    ensures on ==> LowAt(w.looks, phase, w.progress[phase])
    ensures !on && w.quiet ==> !w.low || w.stopped
    ensures old(w.Still()) ==> on && w.Still()
  {
    ghost var looks := w.looks;
    var stopped := w.Stopped();
    if stopped {
      return false;
    }
    on := w.Low();
    DeservedStays(w.removals, looks, w.looks[|looks|], w.quiet);
    assert on ==> LooksLow(w.looks[|looks|], phase, w.progress[phase]);
    if w.quiet {
      SeenStays(looks, w.looks[|looks|], phase);
    }
  }

  /** There are `n` more removals, all of the phase. */
  predicate More(before: seq<Removal>, after: seq<Removal>, phase: nat, n: nat) {
    && |after| == |before| + n && before <= after
    && forall i | |before| <= i < |after| :: after[i].phase == phase
  }

  /** One candidate was gone through and `gone` of it was deleted. */
  method DeleteOf(w: World, phase: nat, at: nat, succeeds: bool) returns (n: nat)
    requires w.In(phase) && w.progress[phase].tried == at + 1 <= w.progress[phase].listed
    requires phase > 0 ==> LowAt(w.looks, phase, Phase(w.progress[phase].listed, at))
    modifies w`removals
    ensures forall i | |old(w.removals)| <= i < |w.removals| :: w.removals[i].at == at
    ensures w.In(phase) && More(old(w.removals), w.removals, phase, n)
    ensures n == if succeeds then 1 else 0
  {
    n := w.Delete(phase, at, succeeds);
  }

  // ----- how much there is to delete -----

  function Trues(bs: seq<bool>): nat {
    if bs == [] then 0 else Trues(bs[..|bs| - 1]) + (if bs[|bs| - 1] then 1 else 0)
  }

  function Deletable(cs: seq<Cache>): nat {
    if cs == [] then 0
    else
      var last := cs[|cs| - 1];
      Deletable(cs[..|cs| - 1]) + (if last.takeable && last.moves && last.deletes then 1 else 0)
  }

  function AllDeletable(tasks: seq<Idle>): nat {
    if tasks == [] then 0 else AllDeletable(tasks[..|tasks| - 1]) + Deletable(tasks[|tasks| - 1].caches)
  }

  ghost predicate Goes(c: Checkout) {
    Clear(c) && c.moves && c.deletes
  }

  ghost function AllGoing(cs: seq<Checkout>): seq<bool> {
    seq(|cs|, i requires 0 <= i < |cs| => Goes(cs[i]))
  }

  ghost function Clearable(cs: seq<Checkout>): nat {
    Trues(AllGoing(cs))
  }

  function Unshared(ds: seq<Shared>): nat {
    if ds == [] then 0
    else
      var last := ds[|ds| - 1];
      Unshared(ds[..|ds| - 1]) + (if last.sameDev && last.moves && last.deletes then 1 else 0)
  }

  /** Every phase leaves the record in order, counts what it deleted, and ends early only if the disk is no
      longer low or the pass was stopped. */
  twostate predicate Done(w: World, phase: nat, n: nat)
    reads w
  {
    && w.Through(phase + 1)
    && More(old(w.removals), w.removals, phase, n)
  }

  method SweepLeftovers(w: World, found: seq<bool>) returns (n: nat)
    requires w.In(0) && w.progress[0] == Phase(|found|, 0)
    modifies w
    ensures Done(w, 0, n)
    ensures n == Trues(found) && (old(w.Still()) ==> w.Still())
  {
    n := 0;
    for i := 0 to |found|
      invariant n == Trues(found[..i]) && (old(w.Still()) ==> w.Still())
      invariant w.In(0) && w.progress[0] == Phase(|found|, i)
      invariant More(old(w.removals), w.removals, 0, n)
    {
      assert found[..i + 1][..i] == found[..i];
      w.Try(0);
      var k := DeleteOf(w, 0, i, found[i]);
      n := n + k;
    }
    assert found[..|found|] == found;
  }

  /** Phase 1. */
  method PruneTaskCaches(w: World, tasks: seq<Idle>) returns (n: nat)
    requires w.In(1) && w.progress[1] == Phase(|tasks|, 0)
    modifies w
    ensures Done(w, 1, n)
    ensures old(w.Still()) ==> n == AllDeletable(tasks) && w.Still()
  {
    n := 0;
    var i := 0;
    while i < |tasks|
      invariant i <= |tasks| && w.In(1) && w.progress[1] == Phase(|tasks|, i)
      invariant More(old(w.removals), w.removals, 1, n)
      invariant old(w.Still()) ==> n == AllDeletable(tasks[..i]) && w.Still()
    {
      assert tasks[..i + 1][..i] == tasks[..i];
      var on := GoesOn(w, 1);
      if !on {
        return;
      }
      w.Try(1);
      var k := TakeCaches(w, tasks[i], i);
      n := n + k;
      i := i + 1;
    }
    assert tasks[..|tasks|] == tasks;
  }

  /** The caches of one task are renamed aside while no step can start, then deleted. */
  method TakeCaches(w: World, t: Idle, at: nat) returns (n: nat)
    requires w.In(1) && w.progress[1].tried == at + 1 <= w.progress[1].listed
    requires LowAt(w.looks, 1, Phase(w.progress[1].listed, at))
    modifies w
    ensures w.In(1) && w.progress == old(w.progress)
    ensures More(old(w.removals), w.removals, 1, n)
    ensures old(w.Still()) ==> n == Deletable(t.caches) && w.Still()
  {
    var moved: seq<bool> := [];
    w.Others();
    if t.task !in w.busy {
      for i := 0 to |t.caches|
        invariant w.In(1) && w.progress == old(w.progress) && w.removals == old(w.removals) && t.task !in w.busy
        invariant w.looks == old(w.looks)
        invariant Trues(moved) == Deletable(t.caches[..i]) && (old(w.Still()) ==> w.Still())
      {
        assert t.caches[..i + 1][..i] == t.caches[..i];
        if t.caches[i].takeable {
          var ok := w.MoveAside(1, t.task, t.caches[i].takeable, t.caches[i].moves);
          if ok {
            assert (moved + [t.caches[i].deletes])[..|moved|] == moved;
            moved := moved + [t.caches[i].deletes];
          }
        }
      }
      assert t.caches[..|t.caches|] == t.caches;
    }
    n := 0;
    for i := 0 to |moved|
      invariant w.In(1) && w.progress == old(w.progress) && w.looks == old(w.looks)
      invariant More(old(w.removals), w.removals, 1, n)
      invariant n == Trues(moved[..i]) && (old(w.Still()) ==> w.Still())
    {
      assert moved[..i + 1][..i] == moved[..i];
      w.Others();
      var k := DeleteOf(w, 1, at, moved[i]);
      n := n + k;
    }
    assert moved[..|moved|] == moved;
  }

  /** A removed checkout was on the workspace's file system and nothing spoke against deleting it. */
  ghost predicate Cleared(checkouts: seq<Checkout>, removals: seq<Removal>) {
    forall i | 0 <= i < |removals| && removals[i].phase == 2 ::
      removals[i].at < |checkouts| && Clear(checkouts[removals[i].at])
  }

  ghost predicate Clear(c: Checkout) {
    c.sameDev && MayGo(c.tree, c.link, c.facts, REPO_SEARCH_DEPTH)
  }

  lemma ClearedGrows(checkouts: seq<Checkout>, before: seq<Removal>, after: seq<Removal>, at: nat, n: nat)
    requires Cleared(checkouts, before) && More(before, after, 2, n) && at < |checkouts|
    requires forall i | |before| <= i < |after| :: after[i].at == at
    requires n > 0 ==> Clear(checkouts[at])
    ensures Cleared(checkouts, after)
  {
  }

  /** Phase 2. */
  method PruneTaskCheckouts(w: World, checkouts: seq<Checkout>) returns (n: nat)
    requires w.In(2) && w.progress[2] == Phase(|checkouts|, 0) && Cleared(checkouts, w.removals)
    requires forall i | 0 <= i < |checkouts| :: checkouts[i].tree.Dir?
    modifies w
    ensures Done(w, 2, n) && Cleared(checkouts, w.removals)
    ensures old(w.Still()) ==> n == Clearable(checkouts) && w.Still()
  {
    n := 0;
    var i := 0;
    ghost var going := AllGoing(checkouts);
    while i < |checkouts|
      invariant i <= |checkouts| && w.In(2) && w.progress[2] == Phase(|checkouts|, i)
      invariant More(old(w.removals), w.removals, 2, n) && Cleared(checkouts, w.removals)
      invariant old(w.Still()) ==> n == Trues(going[..i]) && w.Still()
    {
      assert going[..i + 1][..i] == going[..i];
      var on := GoesOn(w, 2);
      if !on {
        return;
      }
      w.Try(2);
      ghost var before := w.removals;
      var k := TakeCheckout(w, checkouts[i], i);
      ClearedGrows(checkouts, before, w.removals, i, k);
      n := n + k;
      i := i + 1;
    }
    assert going[..|checkouts|] == going;
  }

  /** The checks before the registry is locked. */
  method MayBeTaken(w: World, c: Checkout) returns (clear: bool)
    requires w.In(2) && c.tree.Dir?
    modifies w
    ensures w.In(2) && w.progress == old(w.progress) && w.removals == old(w.removals) && w.looks == old(w.looks)
    ensures clear ==> Clear(c)
    ensures old(w.Still()) ==> (clear <==> Clear(c)) && w.Still()
  {
    w.Others();
    if c.task in w.protectedTasks || !c.sameDev {
      return false;
    }
    var blockers := CheckoutBlockers(c.tree, c.link, c.facts);
    return blockers == [];
  }

  /** One checkout; what was checked before the rename is checked again with the registry locked. */
  method TakeCheckout(w: World, c: Checkout, at: nat) returns (n: nat)
    requires w.In(2) && w.progress[2].tried == at + 1 <= w.progress[2].listed && c.tree.Dir?
    requires LowAt(w.looks, 2, Phase(w.progress[2].listed, at))
    modifies w
    ensures w.In(2) && w.progress == old(w.progress)
    ensures More(old(w.removals), w.removals, 2, n)
    ensures forall i | |old(w.removals)| <= i < |w.removals| :: w.removals[i].at == at
    ensures n > 0 ==> Clear(c)
    ensures old(w.Still()) ==> n == (if Goes(c) then 1 else 0) && w.Still()
  {
    var clear := MayBeTaken(w, c);
    if !clear {
      return 0;
    }
    w.Others();
    if c.task in w.protectedTasks || c.task in w.linked {
      return 0;
    }
    var ok := w.MoveAside(2, c.task, Clear(c), c.moves);
    if !ok {
      return 0;
    }
    w.Others();
    n := DeleteOf(w, 2, at, c.deletes);
  }

  /** Phase 3. */
  method PruneSccache(w: World, files: seq<bool>) returns (n: nat)
    requires w.In(3) && w.progress[3] == Phase(|files|, 0)
    modifies w
    ensures Done(w, 3, n)
    ensures old(w.Still()) ==> n == Trues(files) && w.Still()
  {
    n := 0;
    var i := 0;
    while i < |files|
      invariant i <= |files| && w.In(3) && w.progress[3] == Phase(|files|, i)
      invariant More(old(w.removals), w.removals, 3, n)
      invariant old(w.Still()) ==> n == Trues(files[..i]) && w.Still()
    {
      assert files[..i + 1][..i] == files[..i];
      var on := GoesOn(w, 3);
      if !on {
        return;
      }
      w.Try(3);
      var k := DeleteOf(w, 3, i, files[i]);
      n := n + k;
      i := i + 1;
    }
    assert files[..|files|] == files;
  }

  /** Phase 4. */
  method PruneSharedTargets(w: World, dirs: seq<Shared>) returns (n: nat)
    requires w.In(4) && w.progress[4] == Phase(|dirs|, 0)
    modifies w
    ensures Done(w, 4, n)
    ensures old(w.Still()) ==> n == Unshared(dirs) && w.Still()
  {
    n := 0;
    var i := 0;
    while i < |dirs|
      invariant i <= |dirs| && w.In(4) && w.progress[4] == Phase(|dirs|, i)
      invariant More(old(w.removals), w.removals, 4, n)
      invariant old(w.Still()) ==> n == Unshared(dirs[..i]) && w.Still()
    {
      assert dirs[..i + 1][..i] == dirs[..i];
      var on := GoesOn(w, 4);
      if !on {
        return;
      }
      w.Try(4);
      var k := TakeShared(w, dirs[i], i);
      n := n + k;
      i := i + 1;
    }
    assert dirs[..|dirs|] == dirs;
  }

  /** The locks of the builds are held from the check until the directory is renamed. */
  method TakeShared(w: World, d: Shared, at: nat) returns (n: nat)
    requires w.In(4) && w.progress[4].tried == at + 1 <= w.progress[4].listed
    requires LowAt(w.looks, 4, Phase(w.progress[4].listed, at))
    modifies w
    ensures w.In(4) && w.progress == old(w.progress)
    ensures More(old(w.removals), w.removals, 4, n)
    ensures old(w.Still()) ==> n == (if d.sameDev && d.moves && d.deletes then 1 else 0) && w.Still()
  {
    if !d.sameDev {
      return 0;
    }
    w.Others();
    if d.dir in w.building {
      return 0;
    }
    var ok := w.MoveAside(4, d.dir, d.sameDev, d.moves);
    if !ok {
      return 0;
    }
    w.Others();
    n := DeleteOf(w, 4, at, d.deletes);
  }

  /** The pass. On every disk something is deleted in phases 1 to 4 only of a candidate before which the disk
      was looked at and found low, with just the candidates before it tried; on a disk nobody else writes to,
      moreover, only after every candidate of the earlier phases was tried and the disk was found low after
      that. Whatever steps start or end meanwhile, nothing in use and nothing ineligible is renamed; no
      checkout goes that anything speaks for; and the result counts the deletions. If the disk stays low and
      nothing stands in the way, everything goes that may. */
  method PrunePass(w: World, ws: Workspace) returns (removed: nat)
    requires w.removals == [] && w.moves == []
    requires forall i | 0 <= i < |ws.checkouts| :: ws.checkouts[i].tree.Dir?
    modifies w
    ensures w.Orderly() && removed == |w.removals| && Cleared(ws.checkouts, w.removals)
    ensures old(w.Still()) ==>
              removed == Trues(ws.leftovers) + AllDeletable(ws.tasks) + Clearable(ws.checkouts) + Trues(ws.sccache)
                         + Unshared(ws.shared)
    ensures old(w.quiet && !w.low) ==> removed == 0 && w.moves == []
  {
    removed := 0;
    var low := w.Low();
    if !low {
      return;
    }
    ghost var k := |w.looks| - 1;
    w.List(0, |ws.leftovers|);
    assert StillLow(w.looks[k], 0);
    removed := SweepLeftovers(w, ws.leftovers);
    var n := PruneTasks(w, ws);
    removed := removed + n;
    n := PruneBuildCaches(w, ws);
    removed := removed + n;
  }

  /** Phases 1 and 2, each behind its gate. */
  method PruneTasks(w: World, ws: Workspace) returns (removed: nat)
    requires w.Through(1) && Cleared(ws.checkouts, w.removals)
    requires forall i | 0 <= i < |ws.checkouts| :: ws.checkouts[i].tree.Dir?
    modifies w
    ensures w.Through(3) && |w.removals| == |old(w.removals)| + removed && Cleared(ws.checkouts, w.removals)
    ensures old(w.Still()) ==> removed == AllDeletable(ws.tasks) + Clearable(ws.checkouts) && w.Still()
  {
    removed := 0;
    var enter := Gate(w, 1, |ws.tasks|);
    if enter {
      removed := PruneTaskCaches(w, ws.tasks);
    }
    enter := Gate(w, 2, |ws.checkouts|);
    if enter {
      var n := PruneTaskCheckouts(w, ws.checkouts);
      removed := removed + n;
    }
  }

  /** Phases 3 and 4. */
  method PruneBuildCaches(w: World, ws: Workspace) returns (removed: nat)
    requires w.Through(3) && Cleared(ws.checkouts, w.removals)
    modifies w
    ensures w.Through(5) && |w.removals| == |old(w.removals)| + removed && Cleared(ws.checkouts, w.removals)
    ensures old(w.Still()) ==> removed == Trues(ws.sccache) + Unshared(ws.shared) && w.Still()
  {
    removed := 0;
    var enter := Gate(w, 3, |ws.sccache|);
    if enter {
      removed := PruneSccache(w, ws.sccache);
    }
    enter := Gate(w, 4, |ws.shared|);
    if enter {
      var n := PruneSharedTargets(w, ws.shared);
      removed := removed + n;
    }
  }
}
