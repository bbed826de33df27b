/**
 Spawning, exiting, reaping and pid reuse in every interleaving (sandbox-container/src/reaper.rs). A
 process is known by its number, which is never reused; its pid is free again once it was waited for.
 */
module ChildReaping {
  import opened Reaper

  datatype Process = Process(number: nat, zombie: bool)

  datatype Lock = Free | Spawning | Reaping

  /** The child the reaping pass just waited for and has not delivered yet. */
  datatype Hand = Empty | Got(pid: int, number: nat)

  datatype State = State(
    processes: map<int, Process>,
    ended: map<nat, ExitStatus>,
    next: nat,
    lock: Lock,
    hand: Hand,
    forked: map<int, nat>,
    held: Registry,
    registered: set<nat>,
    orphans: set<nat>)

  const INIT := State(map[], map[], 0, Free, Empty, map[], Registry(map[], []), {}, {})

  datatype Label =
    | LockSpawn
    | Fork(pid: int)
    | Insert(pid: int)
    | UnlockSpawn
    | Orphan(pid: int)
    | Exit(pid: int, st: ExitStatus)
    | OtherReaps(pid: int)
    | LockReap
    | Wait(pid: int)
    | Deliver
    | Lost(pid: int)
    | UnlockReap

  /** `locked`: spawning holds the registry lock across fork and registration, as the code does. `reapAll`:
      the reaper waits for every child, as pid 1 does, not for registered ones only. `exclusive`: nobody else
      waits for a registered child, nor, beside a reaper of all, for any. */
  datatype Policy = Policy(locked: bool, reapAll: bool, exclusive: bool)

  function DoFork(p: Policy, s: State, pid: int): State {
    if pid in s.processes || (p.locked && (s.lock != Spawning || s.forked != map[])) then s
    else s.(processes := s.processes[pid := Process(s.next, false)], forked := s.forked[pid := s.next], next := s.next + 1)
  }

  function DoInsert(p: Policy, s: State, pid: int): State {
    if pid !in s.forked || s.lock != (if p.locked then Spawning else Free) then s
    else s.(held := s.held.(children := s.held.children[pid := s.forked[pid]]),
            registered := s.registered + {s.forked[pid]},
            forked := s.forked - {pid})
  }

  /** A process this one inherits, or one that other code forked. */
  function DoOrphan(s: State, pid: int): State {
    if pid in s.processes then s
    else s.(processes := s.processes[pid := Process(s.next, false)], next := s.next + 1)
  }

  function DoExit(s: State, pid: int, st: ExitStatus): State {
    if pid !in s.processes || s.processes[pid].zombie then s
    else s.(processes := s.processes[pid := s.processes[pid].(zombie := true)],
            ended := s.ended[s.processes[pid].number := st])
  }

  /** Other code waits for a child. */
  function DoOtherReaps(p: Policy, s: State, pid: int): State {
    if pid !in s.processes || !s.processes[pid].zombie
       || (p.exclusive && (p.reapAll || pid in s.held.children || pid in s.forked)) then s
    else s.(processes := s.processes - {pid})
  }

  function DoWait(p: Policy, s: State, pid: int): State {
    if s.lock != Reaping || s.hand != Empty || pid !in s.processes || !s.processes[pid].zombie
       || !(p.reapAll || pid in s.held.children) then s
    else s.(hand := Got(pid, s.processes[pid].number), processes := s.processes - {pid})
  }

  function DoDeliver(s: State): State {
    if s.hand == Empty || s.hand.number !in s.ended then s
    else s.(hand := Empty,
            held := Delivered(s.held, s.hand.pid, s.ended[s.hand.number]),
            orphans := if s.hand.pid in s.held.children then s.orphans else s.orphans + {s.hand.number})
  }

  /** A registered pid that is no child any more. */
  function DoLost(p: Policy, s: State, pid: int): State {
    if s.lock != Reaping || s.hand != Empty || p.reapAll || pid !in s.held.children || pid in s.processes then s
    else s.(held := Delivered(s.held, pid, Signaled(0)))
  }

  function Step(p: Policy, s: State, l: Label): State {
    match l
    case LockSpawn => if p.locked && s.lock == Free then s.(lock := Spawning) else s
    case Fork(pid) => DoFork(p, s, pid)
    case Insert(pid) => DoInsert(p, s, pid)
    case UnlockSpawn => if s.lock == Spawning && s.forked == map[] then s.(lock := Free) else s
    case Orphan(pid) => DoOrphan(s, pid)
    case Exit(pid, st) => DoExit(s, pid, st)
    case OtherReaps(pid) => DoOtherReaps(p, s, pid)
    case LockReap => if s.lock == Free then s.(lock := Reaping) else s
    case Wait(pid) => DoWait(p, s, pid)
    case Deliver => DoDeliver(s)
    case Lost(pid) => DoLost(p, s, pid)
    case UnlockReap => if s.lock == Reaping && s.hand == Empty then s.(lock := Free) else s
  }

  function Run(p: Policy, ls: seq<Label>): State
    decreases |ls|
  {
    if ls == [] then INIT else Step(p, Run(p, ls[..|ls| - 1]), ls[|ls| - 1])
  }

  // ----- what every step keeps -----

  /** Numbers are new when given. */
  predicate Numbered(s: State) {
    && (forall pid | pid in s.processes :: s.processes[pid].number < s.next)
    && (forall n | n in s.registered :: n < s.next)
    && (forall n | n in s.ended :: n < s.next)
    && (s.hand.Got? ==> s.hand.number < s.next)
    && (forall a, b | a in s.processes && b in s.processes && a != b :: s.processes[a].number != s.processes[b].number)
    && (s.hand.Got? ==> forall pid | pid in s.processes :: s.processes[pid].number != s.hand.number)
  }

  /** A process has a status exactly once it exited. */
  predicate Fated(s: State) {
    && (forall pid | pid in s.processes :: s.processes[pid].zombie <==> s.processes[pid].number in s.ended)
    && (s.hand.Got? ==> s.hand.number in s.ended)
  }

  predicate Locked(p: Policy, s: State) {
    (p.locked && s.forked != map[] ==> s.lock == Spawning) && (s.hand.Got? ==> s.lock == Reaping)
  }

  /** Where a registered child is: in the reaper's hand, or a child of the kernel under its own pid. */
  predicate Kept(s: State, pid: int, n: nat) {
    if s.hand.Got? && s.hand.pid == pid then s.hand.number == n
    else pid in s.processes && s.processes[pid].number == n
  }

  predicate Placed(s: State) {
    && (forall pid | pid in s.held.children :: Kept(s, pid, s.held.children[pid]))
    && (forall pid | pid in s.forked :: pid in s.processes && s.processes[pid].number == s.forked[pid])
    && (forall pid | pid in s.forked :: s.forked[pid] !in s.registered)
  }

  predicate Pending(s: State, n: nat) {
    exists pid :: pid in s.held.children && s.held.children[pid] == n
  }

  predicate Sent(s: State, n: nat) {
    exists i :: 0 <= i < |s.held.sent| && s.held.sent[i].0 == n
  }

  /** Each registered child is pending or delivered, never both; and never delivered twice. */
  predicate Counted(s: State) {
    && (forall n | n in s.registered :: Pending(s, n) <==> !Sent(s, n))
    && (forall pid | pid in s.held.children :: s.held.children[pid] in s.registered)
    && (forall i | 0 <= i < |s.held.sent| :: s.held.sent[i].0 in s.registered)
    && (forall i, j | 0 <= i < j < |s.held.sent| :: s.held.sent[i].0 != s.held.sent[j].0)
    && (forall a, b | a in s.held.children && b in s.held.children && a != b :: s.held.children[a] != s.held.children[b])
  }

  predicate Honest(s: State) {
    && (forall i | 0 <= i < |s.held.sent| :: s.held.sent[i].0 in s.ended && s.ended[s.held.sent[i].0] == s.held.sent[i].1)
    && s.orphans !! s.registered
    && (forall n | n in s.orphans :: n in s.ended)
  }

  /** What was delivered or discarded is no process any more. */
  predicate Gone(s: State) {
    && (forall i, pid | 0 <= i < |s.held.sent| && pid in s.processes :: s.processes[pid].number != s.held.sent[i].0)
    && (forall pid | pid in s.processes :: s.processes[pid].number !in s.orphans)
    && (s.hand.Got? ==> s.hand.number !in s.orphans && !Sent(s, s.hand.number))
  }

  predicate Inv(p: Policy, s: State) {
    Numbered(s) && Fated(s) && Locked(p, s) && Placed(s) && Counted(s) && Honest(s) && Gone(s)
  }

  /** Nobody else waits, and the lock is held from fork to registration wherever the reaper could otherwise
      wait for a child that is not registered yet. */
  predicate Sound(p: Policy) {
    p.exclusive && (p.locked || !p.reapAll)
  }

  lemma ForkKeeps(p: Policy, s: State, pid: int)
    requires Sound(p) && Inv(p, s)
    ensures Inv(p, DoFork(p, s, pid))
  {
  }

  lemma InsertKeeps(p: Policy, s: State, pid: int)
    requires Sound(p) && Inv(p, s)
    ensures Inv(p, DoInsert(p, s, pid))
  {
    var t := DoInsert(p, s, pid);
    if t != s {
      assert t.held.children[pid] == s.forked[pid];
      forall n | n in s.registered ensures Pending(t, n) <==> Pending(s, n) {
        if Pending(s, n) {
          var q :| q in s.held.children && s.held.children[q] == n;
          assert t.held.children[q] == n;
        }
      }
    }
  }

  lemma OrphanKeeps(p: Policy, s: State, pid: int)
    requires Inv(p, s)
    ensures Inv(p, DoOrphan(s, pid))
  {
  }

  lemma ExitKeeps(p: Policy, s: State, pid: int, st: ExitStatus)
    requires Inv(p, s)
    ensures Inv(p, DoExit(s, pid, st))
  {
  }

  lemma OtherReapsKeeps(p: Policy, s: State, pid: int)
    requires p.exclusive && Inv(p, s)
    ensures Inv(p, DoOtherReaps(p, s, pid))
  {
  }

  lemma WaitKeeps(p: Policy, s: State, pid: int)
    requires Sound(p) && Inv(p, s)
    ensures Inv(p, DoWait(p, s, pid))
  {
  }

  lemma DeliverKeeps(p: Policy, s: State)
    requires Inv(p, s)
    ensures Inv(p, DoDeliver(s))
  {
    if s.hand.Got? {
      InHandIsPending(p, s);
      if s.hand.pid in s.held.children {
        DeliveryCounts(p, s, DoDeliver(s));
      }
    }
  }

  /** Whether the child just waited for is registered shows in the registry: no child is taken for an
      orphan and no orphan for a child. */
  lemma InHandIsPending(p: Policy, s: State)
    requires Inv(p, s) && s.hand.Got?
    ensures s.hand.pid in s.held.children <==> s.hand.number in s.registered
    ensures s.hand.pid in s.held.children ==> s.held.children[s.hand.pid] == s.hand.number
  {
    if s.hand.number in s.registered {
      var q :| q in s.held.children && s.held.children[q] == s.hand.number;
      assert Kept(s, q, s.hand.number);
    }
  }

  lemma DeliveryCounts(p: Policy, s: State, t: State)
    requires Inv(p, s) && s.hand.Got? && s.hand.pid in s.held.children && t == DoDeliver(s)
    requires s.held.children[s.hand.pid] == s.hand.number
    ensures Counted(t)
  {
    var k := |s.held.sent|;
    assert t.held.sent[k].0 == s.hand.number;
    forall n | n in s.registered ensures Pending(t, n) <==> !Sent(t, n) {
      if Sent(s, n) {
        var i :| 0 <= i < k && s.held.sent[i].0 == n;
        assert t.held.sent[i].0 == n;
      }
      if Pending(s, n) && n != s.hand.number {
        var q :| q in s.held.children && s.held.children[q] == n;
        assert t.held.children[q] == n;
      }
    }
  }

  lemma LostIsNever(p: Policy, s: State, pid: int)
    requires Inv(p, s)
    ensures DoLost(p, s, pid) == s
  {
  }

  lemma LockStepKeeps(p: Policy, s: State, l: Label)
    requires Inv(p, s) && (l.LockSpawn? || l.UnlockSpawn? || l.LockReap? || l.UnlockReap?)
    ensures Inv(p, Step(p, s, l))
  {
  }

  lemma StepKeeps(p: Policy, s: State, l: Label)
    requires Sound(p) && Inv(p, s)
    ensures Inv(p, Step(p, s, l))
  {
    match l
    case Fork(pid) => ForkKeeps(p, s, pid);
    case Insert(pid) => InsertKeeps(p, s, pid);
    case Orphan(pid) => OrphanKeeps(p, s, pid);
    case Exit(pid, st) => ExitKeeps(p, s, pid, st);
    case OtherReaps(pid) => OtherReapsKeeps(p, s, pid);
    case Wait(pid) => WaitKeeps(p, s, pid);
    case Deliver => DeliverKeeps(p, s);
    case Lost(pid) => LostIsNever(p, s, pid);
    case _ => LockStepKeeps(p, s, l);
  }

  lemma {:induction false} RunKeeps(p: Policy, ls: seq<Label>)
    requires Sound(p)
    ensures Inv(p, Run(p, ls))
    decreases |ls|
  {
    if ls != [] {
      RunKeeps(p, ls[..|ls| - 1]);
      StepKeeps(p, Run(p, ls[..|ls| - 1]), ls[|ls| - 1]);
    }
  }

  // ----- the guarantees -----

  /** The reaper is between passes, nobody is spawning, and it has waited for all that exited. */
  predicate Settled(s: State) {
    s.lock == Free && s.hand == Empty && s.forked == map[]
    && forall pid | pid in s.processes :: !s.processes[pid].zombie
  }

  predicate SentAt(s: State, n: nat, i: nat) {
    i < |s.held.sent| && s.held.sent[i].0 == n
  }

  /** Each registered child that exited has been told exactly its own status, once. */
  ghost predicate ToldOnce(s: State, n: nat) {
    && n in s.ended
    && (exists i :: 0 <= i < |s.held.sent| && s.held.sent[i] == (n, s.ended[n]))
    && (forall i: nat, j: nat | SentAt(s, n, i) && SentAt(s, n, j) :: i == j)
  }

  ghost predicate AllTold(p: Policy) {
    forall ls, n | var s := Run(p, ls); Settled(s) && n in s.registered && n in s.ended :: ToldOnce(Run(p, ls), n)
  }

  lemma EachIsTold(p: Policy, ls: seq<Label>, n: nat)
    requires Sound(p) && Settled(Run(p, ls)) && n in Run(p, ls).registered && n in Run(p, ls).ended
    ensures ToldOnce(Run(p, ls), n)
  {
    RunKeeps(p, ls);
    var s := Run(p, ls);
    var i :| 0 <= i < |s.held.sent| && s.held.sent[i].0 == n;
    assert s.held.sent[i] == (n, s.ended[n]);
  }

  /** At any moment: nothing false, nothing twice, nothing to an orphan, and no orphan was registered. */
  lemma NothingFalseIsSent(p: Policy, ls: seq<Label>, i: nat)
    requires Sound(p) && i < |Run(p, ls).held.sent|
    ensures var s := Run(p, ls); var (n, st) := s.held.sent[i];
            && n in s.registered && n !in s.orphans && n in s.ended && s.ended[n] == st
            && forall j | 0 <= j < |s.held.sent| && s.held.sent[j].0 == n :: j == i
  {
    RunKeeps(p, ls);
  }

  /** Registering never overwrites a pending entry, even when the pid is reused. */
  lemma InsertOverwritesNothing(p: Policy, ls: seq<Label>, pid: int)
    requires Sound(p) && Step(p, Run(p, ls), Insert(pid)) != Run(p, ls)
    ensures pid !in Run(p, ls).held.children
  {
    RunKeeps(p, ls);
    var s := Run(p, ls);
    assert pid in s.held.children ==> Kept(s, pid, s.held.children[pid]);
  }

  // ----- why the lock is held across fork and registration -----

  const STOLEN: seq<Label> := [Fork(5), Exit(5, Exited(7)), LockReap, Wait(5), Deliver, UnlockReap, Insert(5)]

  lemma RunNext(p: Policy, ls: seq<Label>, n: nat, s: State, l: Label)
    requires n < |ls| && ls[n] == l && Run(p, ls[..n]) == s
    ensures Run(p, ls[..n + 1]) == Step(p, s, l)
  {
    assert ls[..n + 1][..n] == ls[..n];
  }

  lemma ForkedAndExited(p: Policy)
    requires !p.locked
    ensures Run(p, STOLEN[..2])
         == INIT.(processes := map[5 := Process(0, true)], next := 1, forked := map[5 := 0], ended := map[0 := Exited(7)])
  {
    var s1 := INIT.(processes := map[5 := Process(0, false)], next := 1, forked := map[5 := 0]);
    RunNext(p, STOLEN, 0, INIT, Fork(5));
    assert Step(p, INIT, Fork(5)) == s1;
    RunNext(p, STOLEN, 1, s1, Exit(5, Exited(7)));
  }

  lemma WaitedTooEarly(p: Policy, s: State)
    requires p.reapAll && Run(p, STOLEN[..2]) == s && s.lock == Free && s.hand == Empty
    requires s.processes == map[5 := Process(0, true)]
    ensures Run(p, STOLEN[..4]) == s.(processes := map[], lock := Reaping, hand := Got(5, 0))
  {
    RunNext(p, STOLEN, 2, s, LockReap);
    RunNext(p, STOLEN, 3, s.(lock := Reaping), Wait(5));
    assert s.processes - {5} == map[];
  }

  lemma DiscardedTooEarly(p: Policy, s: State)
    requires Run(p, STOLEN[..4]) == s && s.lock == Reaping && s.hand == Got(5, 0)
    requires 5 !in s.held.children && 0 in s.ended
    ensures Run(p, STOLEN[..6]) == s.(hand := Empty, orphans := s.orphans + {0}, lock := Free)
  {
    RunNext(p, STOLEN, 4, s, Deliver);
    RunNext(p, STOLEN, 5, s.(hand := Empty, orphans := s.orphans + {0}), UnlockReap);
  }

  lemma StolenIsStale(p: Policy)
    requires !p.locked && p.reapAll
    ensures var s := Run(p, STOLEN); Stale(s) && Settled(s) && s.registered == {0}
  {
    ForkedAndExited(p);
    WaitedTooEarly(p, Run(p, STOLEN[..2]));
    DiscardedTooEarly(p, Run(p, STOLEN[..4]));
    RunNext(p, STOLEN, 6, Run(p, STOLEN[..6]), Insert(5));
    assert STOLEN[..7] == STOLEN;
  }

  /** A child that exits between fork and registration is reaped as an orphan. */
  lemma StolenUnlocked(p: Policy)
    requires !p.locked && p.reapAll
    ensures var s := Run(p, STOLEN); Settled(s) && s.registered == {0} && 0 in s.ended && !ToldOnce(s, 0)
  {
    StolenIsStale(p);
  }

  // ----- why nobody else may wait -----

  /** A child is registered and exits, and somebody else waits for it. */
  const TAKEN: seq<Label> := [LockSpawn, Fork(5), Insert(5), UnlockSpawn, Exit(5, Exited(7)), OtherReaps(5)]

  const REGISTERED := INIT.(next := 1, registered := {0}, held := Registry(map[5 := 0], []))

  lemma ForksLocked(p: Policy, ls: seq<Label>)
    requires |ls| > 4 && ls[..4] == TAKEN[..4]
    ensures Run(p, ls[..2]) == INIT.(lock := if p.locked then Spawning else Free,
                                     processes := map[5 := Process(0, false)], next := 1, forked := map[5 := 0])
  {
    assert forall i | 0 <= i < 4 :: ls[i] == ls[..4][i];
    var s1 := INIT.(lock := if p.locked then Spawning else Free);
    RunNext(p, ls, 0, INIT, LockSpawn);
    RunNext(p, ls, 1, s1, Fork(5));
  }

  lemma Registers(p: Policy, ls: seq<Label>)
    requires |ls| > 4 && ls[..4] == TAKEN[..4]
    ensures Run(p, ls[..4]) == REGISTERED.(processes := map[5 := Process(0, false)])
  {
    assert forall i | 0 <= i < 4 :: ls[i] == ls[..4][i];
    ForksLocked(p, ls);
    var s2 := Run(p, ls[..2]);
    RunNext(p, ls, 2, s2, Insert(5));
    var s3 := REGISTERED.(processes := map[5 := Process(0, false)], lock := s2.lock);
    assert s2.forked - {5} == map[];
    assert Step(p, s2, Insert(5)) == s3;
    RunNext(p, ls, 3, s3, UnlockSpawn);
  }

  lemma IsTaken(p: Policy, ls: seq<Label>)
    requires !p.exclusive && |ls| >= 6 && ls[..6] == TAKEN
    ensures Run(p, ls[..6]) == REGISTERED.(ended := map[0 := Exited(7)])
  {
    assert ls[..4] == ls[..6][..4] == TAKEN[..4] && ls[4] == ls[..6][4] && ls[5] == ls[..6][5];
    Registers(p, ls);
    var s := REGISTERED.(processes := map[5 := Process(0, false)]);
    RunNext(p, ls, 4, s, Exit(5, Exited(7)));
    var s5 := REGISTERED.(processes := map[5 := Process(0, true)], ended := map[0 := Exited(7)]);
    assert Step(p, s, Exit(5, Exited(7))) == s5;
    RunNext(p, ls, 5, s5, OtherReaps(5));
    assert s5.processes - {5} == map[];
  }

  /** Nothing is left to wait for, and the child is not told. */
  lemma TakenIsNotTold(p: Policy)
    requires !p.exclusive
    ensures var s := Run(p, TAKEN); Settled(s) && s.registered == {0} && 0 in s.ended && !ToldOnce(s, 0)
  {
    assert TAKEN[..6] == TAKEN;
    IsTaken(p, TAKEN);
  }

  /** A reaper of registered children then reports it lost: a status it never had. */
  lemma LostIsReported(p: Policy)
    requires !p.exclusive && !p.reapAll
    ensures Run(p, TAKEN + [LockReap, Lost(5)]).held.sent == [(0, Signaled(0))]
    ensures Run(p, TAKEN + [LockReap, Lost(5)]).ended == map[0 := Exited(7)]
    ensures Run(p, (TAKEN + [LockReap, Lost(5)])[..7]).held.sent == []
    ensures Run(p, TAKEN + [LockReap, Lost(5)]) == Step(p, Run(p, (TAKEN + [LockReap, Lost(5)])[..7]), Lost(5))
  {
    var ls := TAKEN + [LockReap, Lost(5)];
    var s := REGISTERED.(ended := map[0 := Exited(7)]);
    assert ls[..6] == TAKEN && ls[6] == LockReap && ls[7] == Lost(5) && ls[..8] == ls;
    IsTaken(p, ls);
    RunNext(p, ls, 6, s, LockReap);
    RunNext(p, ls, 7, s.(lock := Reaping), Lost(5));
  }

  // ----- a stranger's status -----

  /** The pid of a child that is gone but still registered is given to a stranger, which exits. */
  const STRANGER: seq<Label> := [Orphan(5), Exit(5, Exited(9)), LockReap, Wait(5), Deliver]

  predicate Stale(s: State) {
    && s.lock == Free && s.hand == Empty && s.processes == map[] && s.next == 1
    && s.held == Registry(map[5 := 0], []) && s.ended == map[0 := Exited(7)]
  }

  lemma StrangerExits(p: Policy, ls: seq<Label>, n: nat, s: State)
    requires n + 5 == |ls| && ls[n..] == STRANGER && Run(p, ls[..n]) == s && Stale(s)
    ensures Run(p, ls[..n + 2])
         == s.(processes := map[5 := Process(1, true)], next := 2, ended := map[0 := Exited(7), 1 := Exited(9)])
  {
    assert ls[n] == ls[n..][0] && ls[n + 1] == ls[n..][1];
    RunNext(p, ls, n, s, Orphan(5));
    var t := s.(processes := map[5 := Process(1, false)], next := 2);
    assert Step(p, s, Orphan(5)) == t;
    RunNext(p, ls, n + 1, t, Exit(5, Exited(9)));
  }

  lemma StrangerIsWaitedFor(p: Policy, ls: seq<Label>, n: nat, s: State)
    requires p.reapAll && n + 5 == |ls| && ls[n..] == STRANGER && Run(p, ls[..n]) == s && Stale(s)
    ensures Run(p, ls[..n + 4])
         == s.(next := 2, ended := map[0 := Exited(7), 1 := Exited(9)], lock := Reaping, hand := Got(5, 1))
  {
    StrangerExits(p, ls, n, s);
    var t := Run(p, ls[..n + 2]);
    assert ls[n + 2] == ls[n..][2] && ls[n + 3] == ls[n..][3];
    RunNext(p, ls, n + 2, t, LockReap);
    RunNext(p, ls, n + 3, t.(lock := Reaping), Wait(5));
    assert t.processes - {5} == map[];
  }

  /** Its status is sent to the channel of the child. */
  lemma StrangerIsDelivered(p: Policy, ls: seq<Label>, n: nat, s: State)
    requires p.reapAll && n + 5 == |ls| && ls[n..] == STRANGER && Run(p, ls[..n]) == s && Stale(s)
    ensures !SentTrue(Run(p, ls), 0)
  {
    StrangerIsWaitedFor(p, ls, n, s);
    assert ls[n + 4] == ls[n..][4];
    RunNext(p, ls, n + 4, Run(p, ls[..n + 4]), Deliver);
    assert ls[..n + 5] == ls;
  }

  /** Status number `i` sent is the own one of the child it was sent to. */
  predicate SentTrue(s: State, i: nat) {
    i < |s.held.sent| ==> s.held.sent[i].0 in s.ended && s.ended[s.held.sent[i].0] == s.held.sent[i].1
  }

  ghost predicate NoneFalse(p: Policy) {
    forall ls, i: nat :: SentTrue(Run(p, ls), i)
  }

  lemma FalseStatus(p: Policy)
    requires !Sound(p)
    ensures exists ls :: !SentTrue(Run(p, ls), 0)
  {
    if !p.reapAll {
      LostIsReported(p);
      assert !SentTrue(Run(p, TAKEN + [LockReap, Lost(5)]), 0);
    } else if !p.exclusive {
      var ls := TAKEN + STRANGER;
      assert ls[..6] == TAKEN && ls[6..] == STRANGER;
      IsTaken(p, ls);
      StrangerIsDelivered(p, ls, 6, Run(p, ls[..6]));
    } else {
      var ls := STOLEN + STRANGER;
      assert ls[..7] == STOLEN && ls[7..] == STRANGER;
      StolenIsStale(p);
      StrangerIsDelivered(p, ls, 7, Run(p, ls[..7]));
    }
  }

  // ----- exactly when -----

  /** No false status is ever sent exactly under the same condition. */
  lemma NoneFalseIff(p: Policy)
    ensures NoneFalse(p) <==> Sound(p)
  {
    if Sound(p) {
      forall ls, i: nat ensures SentTrue(Run(p, ls), i) {
        if i < |Run(p, ls).held.sent| {
          NothingFalseIsSent(p, ls, i);
        }
      }
    } else {
      FalseStatus(p);
    }
  }

  /** Every registered child is told its own status, once, in every run exactly if nobody else waits for it
      and, for a reaper of all children, the lock is held from fork to registration. */
  lemma AllToldIff(p: Policy)
    ensures AllTold(p) <==> Sound(p)
  {
    if Sound(p) {
      forall ls, n | Settled(Run(p, ls)) && n in Run(p, ls).registered && n in Run(p, ls).ended
        ensures ToldOnce(Run(p, ls), n)
      {
        EachIsTold(p, ls, n);
      }
    } else if !p.exclusive {
      TakenIsNotTold(p);
    } else {
      StolenUnlocked(p);
    }
  }

  ghost predicate NeverLost(p: Policy) {
    forall ls, pid :: Step(p, Run(p, ls), Lost(pid)) == Run(p, ls)
  }

  /** No registered child is ever reported lost exactly if the reaper waits for all children or nobody else
      waits for a registered one. */
  lemma NothingIsLostIff(p: Policy)
    ensures NeverLost(p) <==> p.reapAll || p.exclusive
  {
    if !p.reapAll {
      if p.exclusive {
        forall ls, pid ensures Step(p, Run(p, ls), Lost(pid)) == Run(p, ls) {
          RunKeeps(p, ls);
          LostIsNever(p, Run(p, ls), pid);
        }
      } else {
        LostIsReported(p);
        var front := (TAKEN + [LockReap, Lost(5)])[..7];
        assert Step(p, Run(p, front), Lost(5)) != Run(p, front);
      }
    }
  }
}
