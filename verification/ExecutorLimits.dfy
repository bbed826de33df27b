/**
 How far the promises of `ExecutorSafety` go: what a second drive in one process can lose, and what
 `max_runs` bounds once runs are woken.
 */
module ExecutorLimits {
  import opened Wrappers
  import opened RunTable
  import opened Executor
  import opened ExecutorSafety

  // ----- a stale drive overwrites an advanced state -----

  ghost predicate NothingLost(anyway: bool) {
    forall wf, ls, r | r in RunUnder(anyway, wf, INIT, ls).rows :: Lossless(wf, RunUnder(anyway, wf, INIT, ls), r)
  }

  /** One node of local work that goes on to itself with the outputs as data. */
  const WORKS := Workflow((r, st) => Work(true), (r, st, outputs) => Some(At("n", map[], outputs)))

  const FIRST := PENDING.state
  const WORKING := CLAIMED.(status := Running)

  /** Of the two drives of the process, the first is at work; it read the run while pending. */
  const WORKER := Driver(7, 0, Working(Snap(CLAIMED)))

  function Here(row: Row, nodes: set<NodeKey>, drivers: map<DriveId, Driver>, next: DriveId): System {
    System(map[0 := row], nodes, drivers, next, map[0 := FIRST], map[0 := [Start]])
  }

  /** The stalled drive goes on and begins its work. */
  const BEGUN := Here(WORKING, {}, map[0 := Driver(7, 0, Started(Snap(CLAIMED)))], 1)
  const BUSY := Here(WORKING, {KeyOf(0, FIRST)}, map[0 := WORKER], 1)

  /** The same process claims the run again, and its second drive comes as far. */
  function Second(pc: Pc): System {
    Here(WORKING.(leased := true), {KeyOf(0, FIRST)}, map[0 := WORKER, 1 := Driver(7, 0, pc)], 2)
  }

  const READ := Second(Read(Snap(WORKING)))
  const STARTED := Second(Started(Snap(WORKING)))
  const BOTH := Second(Working(Snap(WORKING)))

  lemma Begins()
    ensures StepUnder(true, WORKS, STALLED, BeginRunning(0)) == BEGUN
  {
    assert LiveOthers(STALLED.rows, 0) == {};
    assert STALLED.log[0] + [Start] == [Start];
  }

  lemma Works()
    ensures StepUnder(true, WORKS, BEGUN, BeginWork(0)) == BUSY
  {
  }

  lemma ClaimsAgain()
    ensures StepUnder(true, WORKS, BUSY, Claim(7, 0)) == Second(Top)
  {
  }

  lemma Loads()
    ensures StepUnder(true, WORKS, Second(Top), Load(1)) == READ
  {
  }

  lemma BeginsToo()
    ensures StepUnder(true, WORKS, READ, BeginRunning(1)) == STARTED
  {
  }

  lemma WorksToo()
    ensures StepUnder(true, WORKS, STARTED, BeginWork(1)) == BOTH
  {
  }

  lemma GoesOn(s: System, ls: seq<Label>, l: Label, t: System, u: System)
    requires RunUnder(true, WORKS, s, ls) == t && StepUnder(true, WORKS, t, l) == u
    ensures RunUnder(true, WORKS, s, ls + [l]) == u
  {
    assert (ls + [l])[..|ls|] == ls;
  }

  const FIRSTS: seq<Label> := STALLS + [BeginRunning(0)] + [BeginWork(0)]
  const SECONDS: seq<Label> := FIRSTS + [Claim(7, 0)] + [Load(1)] + [BeginRunning(1)] + [BeginWork(1)]

  lemma FirstWorks()
    ensures RunUnder(true, WORKS, INIT, FIRSTS) == BUSY
  {
    StallsUnder(WORKS);
    Begins();
    GoesOn(INIT, STALLS, BeginRunning(0), STALLED, BEGUN);
    Works();
    GoesOn(INIT, STALLS + [BeginRunning(0)], BeginWork(0), BEGUN, BUSY);
  }

  lemma BothWork()
    ensures RunUnder(true, WORKS, INIT, SECONDS) == BOTH
  {
    FirstWorks();
    ClaimsAgain();
    GoesOn(INIT, FIRSTS, Claim(7, 0), BUSY, Second(Top));
    Loads();
    GoesOn(INIT, FIRSTS + [Claim(7, 0)], Load(1), Second(Top), READ);
    BeginsToo();
    GoesOn(INIT, FIRSTS + [Claim(7, 0)] + [Load(1)], BeginRunning(1), READ, STARTED);
    WorksToo();
    GoesOn(INIT, FIRSTS + [Claim(7, 0)] + [Load(1)] + [BeginRunning(1)], BeginWork(1), STARTED, BOTH);
  }

  const NEWER := Advanced(FIRST, "newer", At("n", map[], "newer"), None)
  const STALE := Advanced(FIRST, "older", At("n", map[], "older"), None)

  lemma NewerFinishes()
    ensures var s := DoFinishWork(WORKS, BOTH, 1, "newer");
            && s.log == map[0 := [Start, NEWER]] && s.initial == map[0 := FIRST]
            && s.drivers == map[0 := WORKER, 1 := Driver(7, 0, Top)]
            && s.rows.Keys == {0} && Fenced(s.rows[0], 7)
  {
    assert [Start] + [NEWER] == [Start, NEWER];
  }

  lemma OlderFinishes(s: System)
    requires s.log == map[0 := [Start, NEWER]] && s.drivers == map[0 := WORKER, 1 := Driver(7, 0, Top)]
    requires s.rows.Keys == {0} && Fenced(s.rows[0], 7)
    ensures var t := DoFinishWork(WORKS, s, 0, "older");
            t.log == map[0 := [Start, NEWER, STALE]] && t.initial == s.initial && 0 in t.rows
  {
    assert [Start, NEWER] + [STALE] == [Start, NEWER, STALE];
  }

  lemma FinishStep(wf: Workflow, s: System, d: DriveId, outputs: Json)
    ensures StepUnder(true, wf, s, FinishWork(d, outputs)) == DoFinishWork(wf, s, d, outputs)
  {
  }

  /** Both finish the same visit; the one that read the older state comes last. */
  const ALL: seq<Label> := SECONDS + [FinishWork(1, "newer")] + [FinishWork(0, "older")]

  lemma BothFinish()
    ensures var s := RunUnder(true, WORKS, INIT, ALL);
            s.log == map[0 := [Start, NEWER, STALE]] && s.initial == map[0 := FIRST] && 0 in s.rows
  {
    var s := DoFinishWork(WORKS, BOTH, 1, "newer");
    var t := DoFinishWork(WORKS, s, 0, "older");
    BothWork();
    FinishStep(WORKS, BOTH, 1, "newer");
    GoesOn(INIT, SECONDS, FinishWork(1, "newer"), BOTH, s);
    NewerFinishes();
    FinishStep(WORKS, s, 0, "older");
    GoesOn(INIT, SECONDS + [FinishWork(1, "newer")], FinishWork(0, "older"), s, t);
    OlderFinishes(s);
  }

  /** The write of the second drive is gone: the older one was not computed from it. */
  lemma StaleWriteLoses()
    ensures 0 in RunUnder(true, WORKS, INIT, ALL).rows && !Lossless(WORKS, RunUnder(true, WORKS, INIT, ALL), 0)
  {
    BothFinish();
    var es := [Start, NEWER, STALE];
    assert es[..2][..1] == [Start] && [Start][..0] == [];
    assert Replay(FIRST, [Start]) == Some(FIRST);
    assert Replay(FIRST, es[..2]) == Some(NEWER.next);
    assert Replay(FIRST, es) == None;
  }

  /** Whatever the workflow, no transition is lost in any run exactly if no process claims a run while an
      earlier drive of it is in flight there. */
  lemma NothingLostIff(anyway: bool)
    ensures NothingLost(anyway) <==> !anyway
  {
    if anyway {
      StaleWriteLoses();
    } else {
      forall wf, ls, r | r in RunUnder(false, wf, INIT, ls).rows
        ensures Lossless(wf, RunUnder(false, wf, INIT, ls), r)
      {
        GuardedRuns(wf, INIT, ls);
        NoTransitionLost(wf, ls, r);
      }
    }
  }

  // ----- max_runs and wake-ups -----

  ghost function RunningRuns(s: System, project: string, workflow: string): set<RunId> {
    set r | r in s.rows && Counted(s.rows[r], project, workflow)
  }

  predicate EverWoken(es: seq<Event>) {
    exists i :: 0 <= i < |es| && es[i].Woken?
  }

  /** The running runs that were woken from a wait at some time. */
  ghost function RunningWoken(s: System, project: string, workflow: string): set<RunId> {
    set r | r in RunningRuns(s, project, workflow) && r in s.log && EverWoken(s.log[r])
  }

  /** A run that parked and was never woken is asleep. */
  lemma {:induction false} SleepsUntilWoken(es: seq<Event>)
    requires PhaseOf(es) != Wrong && !NeverParked(es) && !EverWoken(es)
    ensures PhaseOf(es).Sleeping?
  {
    var front := es[..|es| - 1];
    assert forall i | 0 <= i < |front| :: front[i] == es[i];
    assert !EverWoken(front) && !es[|es| - 1].Woken?;
    if !NeverParked(front) {
      SleepsUntilWoken(front);
    }
  }

  /** Wake-ups are the only way past the cap: over all interleavings, the running, non-test runs of a project
      and workflow are at most the largest pinned `max_runs` and those that were woken. */
  lemma RunningIsBounded(wf: Workflow, ls: seq<Label>, project: string, workflow: string, m: nat)
    requires Capped(Run(wf, INIT, ls), project, workflow, m)
    ensures var s := Run(wf, INIT, ls);
            |RunningRuns(s, project, workflow)| <= m + |RunningWoken(s, project, workflow)|
  {
    var s := Run(wf, INIT, ls);
    MaxRunsHolds(wf, ls, project, workflow, m);
    RunKeeps(wf, INIT, ls);
    var all, unparked, woken :=
      RunningRuns(s, project, workflow), RunningUnparked(s, project, workflow), RunningWoken(s, project, workflow);
    forall r | r in all && r !in unparked ensures r in woken {
      assert RunOk(wf, r, s.rows[r], s.initial[r], s.log[r], s.nodes);
      if !EverWoken(s.log[r]) {
        SleepsUntilWoken(s.log[r]);
      }
    }
    SmallerSet(all, unparked + woken);
    assert |unparked + woken| <= |unparked| + |woken|;
  }

  /** A workflow that waits. */
  const WAITS := Workflow((r, st) => Wait, (r, st, outputs) => None)

  /** Run `n` is created, started, and parks. */
  function Parks(m: nat, n: nat): seq<Label> {
    [] + [Create(n, PENDING.(maxRuns := m))] + [Claim(7, n)] + [Load(n)] + [BeginRunning(n)] + [BeginWait(n)] + [Park(n, true)]
  }

  function Asleep(m: nat, r: RunId): Row {
    PENDING.(maxRuns := m, status := Waiting, waitNode := Some(KeyOf(r, FIRST)), waitUntil := true)
  }

  /** Run `r` when those below `k` are awake again. */
  function Sleeper(m: nat, k: nat, r: RunId): Row {
    if r < k then WakeRow(Asleep(m, r), true) else Asleep(m, r)
  }

  ghost predicate SleepFrom(s: System, m: nat, k: nat, n: nat) {
    s.rows.Keys == s.log.Keys == Span(0, n) && forall r | r in s.rows :: s.rows[r] == Sleeper(m, k, r)
  }

  ghost predicate AllAsleep(s: System, m: nat, n: nat) {
    SleepFrom(s, m, 0, n) && s.drivers == map[] && s.nextDrive == n
  }

  /** `s` with run `n` on its way to the wait. */
  function OnItsWay(s: System, n: nat, row: Row, pc: Pc, es: seq<Event>): System {
    System(s.rows[n := row], s.nodes, map[n := Driver(7, n, pc)], n + 1, s.initial[n := FIRST], s.log[n := es])
  }

  function Claimed(m: nat): Row {
    PENDING.(maxRuns := m, owner := Some(7), leased := true)
  }

  function Created(s: System, m: nat, n: nat): System {
    s.(rows := s.rows[n := PENDING.(maxRuns := m)], initial := s.initial[n := FIRST], log := s.log[n := []])
  }

  lemma RunsOne(wf: Workflow, s: System, ls: seq<Label>, l: Label, t: System)
    requires Step(wf, Run(wf, s, ls), l) == t
    ensures Run(wf, s, ls + [l]) == t
  {
    assert (ls + [l])[..|ls|] == ls;
  }

  lemma IsCreated(s: System, m: nat, n: nat)
    requires n !in s.rows
    ensures Step(WAITS, s, Create(n, PENDING.(maxRuns := m))) == Created(s, m, n)
  {
  }

  lemma IsClaimed(s: System, m: nat, n: nat)
    requires s.drivers == map[] && s.nextDrive == n
    ensures Step(WAITS, Created(s, m, n), Claim(7, n)) == OnItsWay(s, n, Claimed(m), Top, [])
  {
  }

  lemma IsLoaded(s: System, m: nat, n: nat)
    ensures Step(WAITS, OnItsWay(s, n, Claimed(m), Top, []), Load(n))
         == OnItsWay(s, n, Claimed(m), Read(Snap(Claimed(m))), [])
  {
  }

  ghost predicate AllWait(s: System) {
    forall r | r in s.rows :: s.rows[r].status == Waiting
  }

  /** Nobody else runs, so it may start. */
  lemma MayStart(s: System, m: nat, n: nat)
    requires n !in s.rows && AllWait(s) && m > 0
    ensures DoBeginRunning(OnItsWay(s, n, Claimed(m), Read(Snap(Claimed(m))), []), n)
         == OnItsWay(s, n, Claimed(m).(status := Running), Started(Snap(Claimed(m))), [Start])
  {
    var t := OnItsWay(s, n, Claimed(m), Read(Snap(Claimed(m))), []);
    assert LiveOthers(t.rows, n) == {};
    assert [] + [Start] == [Start];
    var u := OnItsWay(s, n, Claimed(m).(status := Running), Started(Snap(Claimed(m))), [Start]);
    assert t.rows[n := u.rows[n]] == u.rows && t.log[n := [Start]] == u.log;
  }

  lemma BeginStep(wf: Workflow, s: System, d: DriveId)
    ensures Step(wf, s, BeginRunning(d)) == DoBeginRunning(s, d)
  {
  }

  lemma SweepStep(wf: Workflow, s: System, r: RunId)
    ensures Step(wf, s, Sweep(r, true)) == DoSweep(s, r, true)
  {
  }

  function Arrived(s: System, m: nat, n: nat): System {
    OnItsWay(s, n, Claimed(m).(status := Running), AtWait(Snap(Claimed(m)), KeyOf(n, FIRST) in s.nodes), [Start])
  }

  lemma Arrives(s: System, m: nat, n: nat)
    ensures Step(WAITS, OnItsWay(s, n, Claimed(m).(status := Running), Started(Snap(Claimed(m))), [Start]), BeginWait(n))
         == Arrived(s, m, n)
  {
  }

  lemma GoesToSleep(s: System, m: nat, n: nat)
    ensures var t := Step(WAITS, Arrived(s, m, n), Park(n, true));
            && t.rows == s.rows[n := Asleep(m, n)] && t.drivers == map[] && t.nextDrive == n + 1
            && t.log.Keys == s.log.Keys + {n}
  {
    var u := Arrived(s, m, n);
    assert ParkRow(u.rows[n], 7, KeyOf(n, FIRST), true) == Some(Asleep(m, n));
    assert u.drivers - {n} == map[];
  }

  lemma Parking(s: System, m: nat, n: nat)
    requires n !in s.rows && AllWait(s) && m > 0 && s.drivers == map[] && s.nextDrive == n
    ensures Run(WAITS, s, Parks(m, n)) == Step(WAITS, Arrived(s, m, n), Park(n, true))
  {
    var ls1 := [] + [Create(n, PENDING.(maxRuns := m))];
    var ls2 := ls1 + [Claim(7, n)] + [Load(n)];
    IsCreated(s, m, n);
    RunsOne(WAITS, s, [], Create(n, PENDING.(maxRuns := m)), Created(s, m, n));
    IsClaimed(s, m, n);
    RunsOne(WAITS, s, ls1, Claim(7, n), OnItsWay(s, n, Claimed(m), Top, []));
    IsLoaded(s, m, n);
    RunsOne(WAITS, s, ls1 + [Claim(7, n)], Load(n), OnItsWay(s, n, Claimed(m), Read(Snap(Claimed(m))), []));
    MayStart(s, m, n);
    BeginStep(WAITS, OnItsWay(s, n, Claimed(m), Read(Snap(Claimed(m))), []), n);
    RunsOne(WAITS, s, ls2, BeginRunning(n),
            OnItsWay(s, n, Claimed(m).(status := Running), Started(Snap(Claimed(m))), [Start]));
    Arrives(s, m, n);
    RunsOne(WAITS, s, ls2 + [BeginRunning(n)], BeginWait(n), Arrived(s, m, n));
    RunsOne(WAITS, s, ls2 + [BeginRunning(n)] + [BeginWait(n)], Park(n, true), Step(WAITS, Arrived(s, m, n), Park(n, true)));
  }

  lemma {:induction false} ManySleep(m: nat, n: nat) returns (ls: seq<Label>)
    requires m > 0
    ensures AllAsleep(Run(WAITS, INIT, ls), m, n)
  {
    if n == 0 {
      ls := [];
    } else {
      ls := ManySleep(m, n - 1);
      OneMoreSleeps(m, n - 1, ls);
      ls := ls + Parks(m, n - 1);
    }
  }

  lemma OneMoreSleeps(m: nat, n: nat, before: seq<Label>)
    requires m > 0 && AllAsleep(Run(WAITS, INIT, before), m, n)
    ensures AllAsleep(Run(WAITS, INIT, before + Parks(m, n)), m, n + 1)
  {
    var s := Run(WAITS, INIT, before);
    RunsAppend(WAITS, INIT, before, Parks(m, n));
    SleepersWait(s, m, n);
    Parking(s, m, n);
    GoesToSleep(s, m, n);
    OneMoreAsleep(s, Run(WAITS, s, Parks(m, n)), m, n);
  }

  lemma SleepersWait(s: System, m: nat, n: nat)
    requires AllAsleep(s, m, n)
    ensures AllWait(s) && n !in s.rows
  {
    assert n !in s.rows.Keys;
  }

  lemma OneMoreAsleep(s: System, t: System, m: nat, n: nat)
    requires AllAsleep(s, m, n)
    requires t.rows == s.rows[n := Asleep(m, n)] && t.log.Keys == s.log.Keys + {n}
    requires t.drivers == map[] && t.nextDrive == n + 1
    ensures AllAsleep(t, m, n + 1)
  {
    SpanNext(n);
    assert t.rows.Keys == s.rows.Keys + {n};
    forall r | r in t.rows ensures t.rows[r] == Sleeper(m, 0, r) {
      assert r == n || (r in s.rows && t.rows[r] == s.rows[r]);
    }
  }

  lemma SpanNext(n: nat)
    ensures Span(0, n + 1) == Span(0, n) + {n}
  {
  }

  lemma {:induction false} RunsAppend(wf: Workflow, s: System, a: seq<Label>, b: seq<Label>)
    ensures Run(wf, s, a + b) == Run(wf, Run(wf, s, a), b)
    decreases |b|
  {
    if b == [] {
      assert a + b == a;
    } else {
      RunsAppend(wf, s, a, b[..|b| - 1]);
      assert (a + b)[..|a + b| - 1] == a + b[..|b| - 1];
    }
  }

  lemma {:induction false} ManyWake(s: System, m: nat, k: nat, n: nat) returns (ls: seq<Label>)
    requires SleepFrom(s, m, 0, n) && k <= n
    ensures SleepFrom(Run(WAITS, s, ls), m, k, n)
    decreases k
  {
    if k == 0 {
      ls := [];
    } else {
      ls := ManyWake(s, m, k - 1, n);
      OneMoreWakes(s, ls, m, k - 1, n);
      ls := ls + [Sweep(k - 1, true)];
    }
  }

  lemma OneMoreWakes(s: System, ls: seq<Label>, m: nat, k: nat, n: nat)
    requires SleepFrom(Run(WAITS, s, ls), m, k, n) && k < n
    ensures SleepFrom(Run(WAITS, s, ls + [Sweep(k, true)]), m, k + 1, n)
  {
    var t := Run(WAITS, s, ls);
    NextWakes(t, m, k, n);
    SweepStep(WAITS, t, k);
    RunsOne(WAITS, s, ls, Sweep(k, true), DoSweep(t, k, true));
  }

  lemma NextWakes(s: System, m: nat, k: nat, n: nat)
    requires SleepFrom(s, m, k, n) && k < n
    ensures SleepFrom(DoSweep(s, k, true), m, k + 1, n)
  {
    assert k in s.rows.Keys && k in s.log.Keys;
    OneRowWakes(s, m, k);
    OthersStay(s.rows, m, k);
    var t := DoSweep(s, k, true);
    assert t.rows.Keys == s.rows.Keys && t.log.Keys == s.log.Keys;
  }

  lemma OneRowWakes(s: System, m: nat, k: nat)
    requires k in s.rows && k in s.log && s.rows[k] == Asleep(m, k)
    ensures DoSweep(s, k, true).rows == s.rows[k := WakeRow(Asleep(m, k), true)]
    ensures DoSweep(s, k, true).log.Keys == s.log.Keys
  {
  }

  lemma OthersStay(rows: map<RunId, Row>, m: nat, k: nat)
    requires k in rows && forall r | r in rows :: rows[r] == Sleeper(m, k, r)
    ensures var rows' := rows[k := WakeRow(Asleep(m, k), true)]; forall r | r in rows' :: rows'[r] == Sleeper(m, k + 1, r)
  {
  }

  lemma AllAwake(s: System, m: nat, n: nat)
    requires SleepFrom(s, m, n, n)
    ensures Capped(s, "p", "w", m) && RunningRuns(s, "p", "w") == Span(0, n)
  {
    forall r | r in s.rows ensures s.rows[r] == WakeRow(Asleep(m, r), true) {
      assert r in s.rows.Keys;
    }
    assert RunningRuns(s, "p", "w") == s.rows.Keys;
  }

  /** And they do lead past it, without limit: whatever the cap that all of them pinned, any number of runs
      can be running at once. */
  lemma WakeUpsExceed(m: nat, n: nat) returns (ls: seq<Label>)
    requires m > 0
    ensures var s := Run(WAITS, INIT, ls); Capped(s, "p", "w", m) && |RunningRuns(s, "p", "w")| == n
  {
    var parks := ManySleep(m, n);
    var s := Run(WAITS, INIT, parks);
    var wakes := ManyWake(s, m, n, n);
    RunsAppend(WAITS, INIT, parks, wakes);
    AllAwake(Run(WAITS, s, wakes), m, n);
    ls := parks + wakes;
  }
}
