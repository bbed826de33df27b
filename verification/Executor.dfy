/**
 The run executor (tracks/src/exec.rs) as a transition system: any number of replicas claim, steal,
 stall and crash; one label is one SQL statement or transaction, or one local decision between two.
 A label that is not enabled changes nothing, so every sequence of labels is a run.
 */
module Executor {
  import opened Wrappers
  import opened RunTable

  /** `render` and `advance` of ez-workflow for the pinned commit, as arbitrary functions. */
  datatype Rendered = Work(local: bool) | Wait | EndNode(how: EndStatus) | Broken

  datatype Workflow = Workflow(render: (RunId, RunState) -> Rendered,
                               advance: (RunId, RunState, Json) -> Option<RunState>)

  /** What `load` reads. */
  datatype Snapshot = Snapshot(status: Status, state: RunState, stop: bool, expired: bool,
                               hasDeadline: bool, waitResult: Option<WaitResult>)

  function Snap(row: Row): Snapshot {
    Snapshot(row.status, row.state, row.stopRequested, row.hasDeadline && row.pastDeadline,
             row.hasDeadline, row.waitResult)
  }

  /** Where a drive is in `drive_inner`. */
  datatype Pc =
    | Top
    | Read(snap: Snapshot)
    | Started(snap: Snapshot)
    | AtWait(snap: Snapshot, existing: bool)
    | Working(snap: Snapshot)
    | Stuck(snap: Snapshot)

  type DriveId = nat
  datatype Driver = Driver(replica: Replica, run: RunId, pc: Pc)

  /** The accepted writes of one run, in order. */
  datatype Event =
    | Start
    | Parked(base: RunState, key: NodeKey)
    | Woken(result: Option<WaitResult>)
    | Advanced(base: RunState, outputs: Json, next: RunState, consumed: Option<WaitResult>)
    | Finished(base: RunState, how: EndStatus, next: RunState)

  datatype System = System(rows: map<RunId, Row>, nodes: set<NodeKey>,
                           drivers: map<DriveId, Driver>, nextDrive: DriveId,
                           initial: map<RunId, RunState>, log: map<RunId, seq<Event>>)

  const INIT := System(map[], {}, map[], 0, map[], map[])

  datatype Label =
    | Create(r: RunId, row: Row)
    | RequestStop(r: RunId)
    | PassDeadline(r: RunId)
    | ExpireLease(r: RunId)
    | Sweep(r: RunId, due: bool)
    | Deliver(r: RunId, key: NodeKey, w: WaitResult)
    | Claim(me: Replica, r: RunId)
    | Renew(d: DriveId)
    | Abandon(d: DriveId)
    | Release(d: DriveId)
    | Load(d: DriveId)
    | SetDeadline(d: DriveId)
    | BeginRunning(d: DriveId)
    | BeginWait(d: DriveId)
    | BeginWork(d: DriveId)
    | FinishWait(d: DriveId)
    | Park(d: DriveId, timeout: bool)
    | FinishWork(d: DriveId, outputs: Json)
    | Reload(d: DriveId)
    | End(d: DriveId, how: EndStatus, reason: Json)

  // ----- steps of the environment -----

  function WithRow(s: System, r: RunId, row: Row, es: seq<Event>): System
    requires r in s.log
  {
    s.(rows := s.rows[r := row], log := s.log[r := s.log[r] + es])
  }

  function DoCreate(s: System, r: RunId, row: Row): System {
    if r in s.rows || !Fresh(row) then s
    else s.(rows := s.rows[r := row], initial := s.initial[r := row.state], log := s.log[r := []])
  }

  function DoSweep(s: System, r: RunId, due: bool): System {
    if r !in s.rows || r !in s.log || !Wakes(s.rows[r], due) then s
    else WithRow(s, r, WakeRow(s.rows[r], due), [Woken(SweepResult(s.rows[r]))])
  }

  function DoDeliver(s: System, r: RunId, key: NodeKey, w: WaitResult): System {
    if r !in s.rows || r !in s.log || s.rows[r].status != Waiting || s.rows[r].waitNode != Some(key) then s
    else WithRow(s, r, DeliverRow(s.rows[r], key, w), [Woken(Some(w))])
  }

  // ----- claiming -----

  /** The hypothesis: no earlier drive of this run is still in flight in this process. */
  ghost predicate NoDriveInFlight(s: System, me: Replica, r: RunId) {
    forall d | d in s.drivers :: !(s.drivers[d].replica == me && s.drivers[d].run == r)
  }

  /** The claim as the SQL has it, without that hypothesis. */
  function ClaimAnyway(s: System, me: Replica, r: RunId): System {
    if r !in s.rows || !Claimable(s.rows[r]) then s
    else s.(rows := s.rows[r := ClaimRow(s.rows[r], me)],
            drivers := s.drivers[s.nextDrive := Driver(me, r, Top)], nextDrive := s.nextDrive + 1)
  }

  ghost function DoClaim(s: System, me: Replica, r: RunId): System {
    if NoDriveInFlight(s, me, r) then ClaimAnyway(s, me, r) else s
  }

  // ----- steps of a drive -----

  predicate Live(s: System, d: DriveId) {
    d in s.drivers && s.drivers[d].run in s.rows && s.drivers[d].run in s.log
  }

  function Goto(s: System, d: DriveId, pc: Pc): System
    requires d in s.drivers
  {
    s.(drivers := s.drivers[d := s.drivers[d].(pc := pc)])
  }

  function Drop(s: System, d: DriveId): System {
    s.(drivers := s.drivers - {d})
  }

  /** A fenced write by drive `d`: on success the row changes and the drive goes on at `then'` or
      ends; when no row matched the drive stops with a lost lease and nothing is written. */
  function Write(s: System, d: DriveId, row: Option<Row>, e: Event, then': Option<Pc>): System
    requires Live(s, d)
  {
    if row.None? then Drop(s, d)
    else
      var s1 := WithRow(s, s.drivers[d].run, row.value, [e]);
      if then'.None? then Drop(s1, d) else Goto(s1, d, then'.value)
  }

  function DoLoad(s: System, d: DriveId): System {
    if !Live(s, d) || s.drivers[d].pc != Top then s
    else Goto(s, d, Read(Snap(s.rows[s.drivers[d].run])))
  }

  /** The run goes past the checks at the top of the loop. */
  predicate Proceeds(snap: Snapshot) {
    snap.state.At? && !snap.stop && !snap.expired
  }

  function DoSetDeadline(s: System, d: DriveId): System {
    if !Live(s, d) || !s.drivers[d].pc.Read? then s
    else
      var dr := s.drivers[d];
      if !Proceeds(dr.pc.snap) || dr.pc.snap.hasDeadline then s
      else Goto(s.(rows := s.rows[dr.run := DeadlineRow(s.rows[dr.run])]), d,
                Read(dr.pc.snap.(hasDeadline := true)))
  }

  /** `start_allowed` for a pending snapshot; any other status goes on at once. */
  ghost function DoBeginRunning(s: System, d: DriveId): System {
    if !Live(s, d) || !s.drivers[d].pc.Read? then s
    else
      var dr := s.drivers[d];
      var snap := dr.pc.snap;
      if !Proceeds(snap) then s
      else if snap.status != Pending then Goto(s, d, Started(snap))
      else if |LiveOthers(s.rows, dr.run)| >= s.rows[dr.run].maxRuns then DoRelease(s, d)
      else if s.rows[dr.run].owner == Some(dr.replica) then
        Goto(WithRow(s, dr.run, StartRow(s.rows[dr.run], dr.replica), [Start]), d, Started(snap))
      else Goto(s, d, Started(snap))
  }

  function DoBeginWait(wf: Workflow, s: System, d: DriveId): System {
    if !Live(s, d) || !s.drivers[d].pc.Started? then s
    else
      var dr := s.drivers[d];
      var snap := dr.pc.snap;
      if !snap.state.At? || wf.render(dr.run, snap.state) != Wait then s
      else Goto(s, d, AtWait(snap, KeyOf(dr.run, snap.state) in s.nodes))
  }

  /** The node row is written before the sandbox step or the GitHub call. */
  function DoBeginWork(wf: Workflow, s: System, d: DriveId): System {
    if !Live(s, d) || !s.drivers[d].pc.Started? then s
    else
      var dr := s.drivers[d];
      var snap := dr.pc.snap;
      if !snap.state.At? || !wf.render(dr.run, snap.state).Work? then s
      else Goto(s.(nodes := s.nodes + {KeyOf(dr.run, snap.state)}), d, Working(snap))
  }

  function DoFinishWait(wf: Workflow, s: System, d: DriveId): System {
    if !Live(s, d) || !s.drivers[d].pc.AtWait? then s
    else
      var dr := s.drivers[d];
      var snap := dr.pc.snap;
      if snap.waitResult.None? || !dr.pc.existing then s
      else
        var outputs := OutputsOf(snap.waitResult.value);
        var next := wf.advance(dr.run, snap.state, outputs);
        if next.None? then s
        else Write(s, d, FinishLocalRow(s.rows[dr.run], dr.replica, next.value),
                   Advanced(snap.state, outputs, next.value, snap.waitResult),
                   if next.value.Over? then None else Some(Top))
  }

  function DoPark(s: System, d: DriveId, timeout: bool): System {
    if !Live(s, d) || !s.drivers[d].pc.AtWait? then s
    else
      var dr := s.drivers[d];
      if (dr.pc.snap.waitResult.Some? && dr.pc.existing) || !dr.pc.snap.state.At? then s
      else
        var key := KeyOf(dr.run, dr.pc.snap.state);
        var row := ParkRow(s.rows[dr.run], dr.replica, key, timeout);
        Write(if row.Some? then s.(nodes := s.nodes + {key}) else s, d, row, Parked(dr.pc.snap.state, key), None)
  }

  function DoFinishWork(wf: Workflow, s: System, d: DriveId, outputs: Json): System {
    if !Live(s, d) || !s.drivers[d].pc.Working? then s
    else
      var dr := s.drivers[d];
      var snap := dr.pc.snap;
      var kind := wf.render(dr.run, snap.state);
      var next := wf.advance(dr.run, snap.state, outputs);
      if !kind.Work? || next.None? then s
      else
        var row := s.rows[dr.run];
        Write(s, d,
              if kind.local then FinishLocalRow(row, dr.replica, next.value)
              else FinishNodeRow(row, dr.replica, next.value),
              Advanced(snap.state, outputs, next.value, None),
              if next.value.Over? then None else Some(Top))
  }

  /** `attach_and_wait` reads the row again before it ends a stopped or stuck step. */
  function DoReload(s: System, d: DriveId): System {
    if !Live(s, d) || !s.drivers[d].pc.Working? then s
    else Goto(s, d, Stuck(Snap(s.rows[s.drivers[d].run])))
  }

  /** The statuses `end_run` is called with at each place. */
  predicate MayEnd(wf: Workflow, r: RunId, pc: Pc, how: EndStatus) {
    match pc
    case Top => false
    case Read(snap) =>
      if snap.state.Unreadable? then how == Failed
      else if snap.state.Over? then how == snap.state.how
      else if snap.stop then how == Cancelled
      else how == Failed
    case Started(snap) =>
      var k := wf.render(r, snap.state);
      (k.EndNode? && how == k.how) || (k.Broken? && how == Failed)
    case AtWait(snap, existing) =>
      && how == Failed && snap.waitResult.Some? && existing
      && wf.advance(r, snap.state, OutputsOf(snap.waitResult.value)).None?
    case Working(snap) => how == Failed || how == Cancelled
    case Stuck(snap) => how == Failed || how == Cancelled
  }

  function DoEnd(wf: Workflow, s: System, d: DriveId, how: EndStatus, reason: Json): System {
    if !Live(s, d) || !MayEnd(wf, s.drivers[d].run, s.drivers[d].pc, how) then s
    else
      var dr := s.drivers[d];
      var base := dr.pc.snap.state;
      var next := base.EndedAs(how, reason);
      Write(s, d, EndRow(s.rows[dr.run], dr.replica, how, if base.Unreadable? then None else Some(next)),
            Finished(base, how, next), None)
  }

  /** The drive gives the run up for a while: it comes back when the lease just set is over. */
  function DoRelease(s: System, d: DriveId): System {
    if !Live(s, d) then s
    else
      var r := s.drivers[d].run;
      Drop(s.(rows := s.rows[r := ReleaseRow(s.rows[r], s.drivers[d].replica)]), d)
  }

  ghost function Step(wf: Workflow, s: System, l: Label): System {
    match l
    case Create(r, row) => DoCreate(s, r, row)
    case RequestStop(r) => if r in s.rows then s.(rows := s.rows[r := StopRow(s.rows[r])]) else s
    case PassDeadline(r) =>
      if r in s.rows && s.rows[r].hasDeadline then s.(rows := s.rows[r := s.rows[r].(pastDeadline := true)]) else s
    case ExpireLease(r) => if r in s.rows then s.(rows := s.rows[r := s.rows[r].(leased := false)]) else s
    case Sweep(r, due) => DoSweep(s, r, due)
    case Deliver(r, key, w) => DoDeliver(s, r, key, w)
    case Claim(me, r) => DoClaim(s, me, r)
    case Renew(d) =>
      if !Live(s, d) then s
      else s.(rows := s.rows[s.drivers[d].run := RenewRow(s.rows[s.drivers[d].run], s.drivers[d].replica)])
    case Abandon(d) => Drop(s, d)
    case Release(d) => DoRelease(s, d)
    case Load(d) => DoLoad(s, d)
    case SetDeadline(d) => DoSetDeadline(s, d)
    case BeginRunning(d) => DoBeginRunning(s, d)
    case BeginWait(d) => DoBeginWait(wf, s, d)
    case BeginWork(d) => DoBeginWork(wf, s, d)
    case FinishWait(d) => DoFinishWait(wf, s, d)
    case Park(d, timeout) => DoPark(s, d, timeout)
    case FinishWork(d, outputs) => DoFinishWork(wf, s, d, outputs)
    case Reload(d) => DoReload(s, d)
    case End(d, how, reason) => DoEnd(wf, s, d, how, reason)
  }

  ghost function Run(wf: Workflow, s: System, ls: seq<Label>): System {
    if ls == [] then s else Step(wf, Run(wf, s, ls[..|ls| - 1]), ls[|ls| - 1])
  }

  // ----- what the log must look like -----

  /** The state rebuilt from the log; `None` when a write was not computed from the state before it. */
  function Replay(init: RunState, es: seq<Event>): Option<RunState> {
    if es == [] then Some(init)
    else
      var before := Replay(init, es[..|es| - 1]);
      match es[|es| - 1]
      case Parked(base, _) => if before == Some(base) then before else None
      case Advanced(base, _, next, _) => if before == Some(base) then Some(next) else None
      case Finished(base, _, next) => if before == Some(base) then Some(next) else None
      case _ => before
  }

  /** The event was computed from `before` and leaves `after`. */
  predicate Follows(before: RunState, e: Event, after: RunState) {
    match e
    case Parked(base, _) => base == before == after
    case Advanced(base, _, next, _) => base == before && next == after
    case Finished(base, _, next) => base == before && next == after
    case _ => before == after
  }

  /** Life of a run. */
  datatype Phase =
    | New                                                   // pending, nothing written yet
    | Going                                                 // between waits
    | Sleeping(key: NodeKey)                                // parked
    | Awake(key: NodeKey, result: Option<WaitResult>)       // woken, not yet advanced
    | Closed(how: EndStatus)
    | Wrong

  function After(p: Phase, e: Event): Phase {
    match (p, e)
    case (New, Start) => Going
    case (Going, Parked(_, k)) => Sleeping(k)
    case (Awake(k, None), Parked(_, k')) => if k == k' then Sleeping(k) else Wrong
    case (Sleeping(k), Woken(w)) => Awake(k, w)
    case (Going, Advanced(_, _, next, None)) => if next.Over? then Closed(next.how) else Going
    case (Awake(_, Some(w)), Advanced(_, outputs, next, Some(w'))) =>
      if w != w' || outputs != OutputsOf(w) then Wrong
      else if next.Over? then Closed(next.how) else Going
    case (New, Finished(_, how, _)) => Closed(how)
    case (Going, Finished(_, how, _)) => Closed(how)
    case (Awake(_, _), Finished(_, how, _)) => Closed(how)
    case _ => Wrong
  }

  function PhaseOf(es: seq<Event>): Phase {
    if es == [] then New else After(PhaseOf(es[..|es| - 1]), es[|es| - 1])
  }

  /** An event is what the workflow or `end_run` makes of its base. */
  predicate Computed(wf: Workflow, r: RunId, e: Event) {
    match e
    case Parked(base, key) => base.At? && wf.render(r, base) == Wait && key == KeyOf(r, base)
    case Advanced(base, outputs, next, _) => wf.advance(r, base, outputs) == Some(next)
    case Finished(base, how, next) => if base.At? && how != Done then next.Over? && next.how == how else next == base
    case _ => true
  }

  // ----- the invariant -----

  /** The row agrees with the phase its log is in. */
  predicate RowFits(wf: Workflow, r: RunId, row: Row, p: Phase, nodes: set<NodeKey>) {
    match p
    case New => row.status == Pending && !row.finished && row.waitNode == None && row.waitResult == None
    case Going => row.status == Running && !row.finished && row.waitNode == None && row.waitResult == None
    case Sleeping(k) =>
      && row.status == Waiting && !row.finished && row.owner == None
      && row.waitNode == Some(k) && row.waitResult == None && AtNode(wf, r, row, k, nodes)
    case Awake(k, w) =>
      && row.status == Running && !row.finished
      && row.waitNode == Some(k) && row.waitResult == w && AtNode(wf, r, row, k, nodes)
    case Closed(how) => row.status == Ended(how) && row.finished
    case Wrong => false
  }

  /** The run is at the wait node visit `k`, and that visit has its node row. */
  predicate AtNode(wf: Workflow, r: RunId, row: Row, k: NodeKey, nodes: set<NodeKey>) {
    row.state.At? && wf.render(r, row.state) == Wait && k == KeyOf(r, row.state) && k in nodes
  }

  /** One run: its row fits its log, its state is the replayed one, its events are computed ones. */
  predicate RunOk(wf: Workflow, r: RunId, row: Row, init: RunState, es: seq<Event>, nodes: set<NodeKey>) {
    && RowFits(wf, r, row, PhaseOf(es), nodes)
    && Replay(init, es) == Some(row.state)
    && forall i | 0 <= i < |es| :: Computed(wf, r, es[i])
  }

  /** What a drive remembers is still so as long as its replica owns the row. */
  predicate DriverFits(wf: Workflow, dr: Driver, row: Row, nodes: set<NodeKey>) {
    && (dr.pc.AtWait? ==> dr.pc.snap.state.At? && wf.render(dr.run, dr.pc.snap.state) == Wait)
    && (dr.pc.Working? ==> dr.pc.snap.state.At? && wf.render(dr.run, dr.pc.snap.state).Work?)
    && (row.owner == Some(dr.replica) ==>
          && !row.finished
          && (!dr.pc.Top? ==> dr.pc.snap.state == row.state && dr.pc.snap.waitResult == row.waitResult)
          && (dr.pc.Read? || dr.pc.Stuck? ==> dr.pc.snap.status == row.status)
          && (dr.pc.Started? || dr.pc.AtWait? || dr.pc.Working? ==> row.status == Running)
          && (dr.pc.AtWait? && dr.pc.snap.waitResult.Some? ==> dr.pc.existing))
  }

  ghost predicate RunsOk(wf: Workflow, s: System) {
    && s.initial.Keys == s.rows.Keys && s.log.Keys == s.rows.Keys
    && forall r | r in s.rows :: RunOk(wf, r, s.rows[r], s.initial[r], s.log[r], s.nodes)
  }

  ghost predicate DrivesOk(wf: Workflow, s: System) {
    && (forall d | d in s.drivers ::
          d < s.nextDrive && s.drivers[d].run in s.rows && DriverFits(wf, s.drivers[d], s.rows[s.drivers[d].run], s.nodes))
    && (forall d, d' | d in s.drivers && d' in s.drivers && d != d' ::
          !(s.drivers[d].replica == s.drivers[d'].replica && s.drivers[d].run == s.drivers[d'].run))
  }

  ghost predicate Inv(wf: Workflow, s: System) {
    RunsOk(wf, s) && DrivesOk(wf, s)
  }

  // ----- every step keeps the invariant -----

  /** One more event of a run that fits its new row. */
  lemma Append(wf: Workflow, r: RunId, old': Row, row: Row, init: RunState, es: seq<Event>, e: Event, nodes: set<NodeKey>)
    requires RunOk(wf, r, old', init, es, nodes)
    requires RowFits(wf, r, row, After(PhaseOf(es), e), nodes) && Computed(wf, r, e)
    requires Follows(old'.state, e, row.state)
    ensures RunOk(wf, r, row, init, es + [e], nodes)
  {
    assert (es + [e])[..|es|] == es;
  }

  predicate OnlyFlags(row: Row, row': Row) {
    row' == row.(stopRequested := row'.stopRequested, hasDeadline := row'.hasDeadline,
                 pastDeadline := row'.pastDeadline, leased := row'.leased)
  }

  /** A row write outside the fence: owner, state and wait columns are as before. */
  lemma QuietWriteKeeps(wf: Workflow, s: System, r: RunId, row: Row)
    requires Inv(wf, s) && r in s.rows && OnlyFlags(s.rows[r], row)
    ensures Inv(wf, s.(rows := s.rows[r := row]))
  {
    QuietRuns(wf, s, r, row);
  }

  lemma QuietRuns(wf: Workflow, s: System, r: RunId, row: Row)
    requires RunsOk(wf, s) && r in s.rows && OnlyFlags(s.rows[r], row)
    ensures RunsOk(wf, s.(rows := s.rows[r := row]))
  {
    assert RunOk(wf, r, s.rows[r], s.initial[r], s.log[r], s.nodes);
    assert RunOk(wf, r, row, s.initial[r], s.log[r], s.nodes);
  }

  lemma CreateKeeps(wf: Workflow, s: System, r: RunId, row: Row)
    requires Inv(wf, s)
    ensures Inv(wf, DoCreate(s, r, row))
  {
  }

  lemma RunWriteKeeps(wf: Workflow, s: System, r: RunId, row: Row, e: Event)
    requires RunsOk(wf, s) && r in s.rows
    requires RowFits(wf, r, row, After(PhaseOf(s.log[r]), e), s.nodes) && Computed(wf, r, e)
    requires Follows(s.rows[r].state, e, row.state)
    ensures RunsOk(wf, WithRow(s, r, row, [e]))
  {
    Append(wf, r, s.rows[r], row, s.initial[r], s.log[r], e, s.nodes);
  }

  lemma WokenFits(wf: Workflow, r: RunId, p: Phase, row: Row, w: Option<WaitResult>, nodes: set<NodeKey>)
    requires RowFits(wf, r, row, p, nodes) && row.status == Waiting
    ensures p.Sleeping? && row.owner == None
    ensures RowFits(wf, r, row.(status := Running, waitUntil := false, waitResult := w), After(p, Woken(w)), nodes)
  {
  }

  lemma WakeKeeps(wf: Workflow, s: System, r: RunId, row: Row, w: Option<WaitResult>)
    requires Inv(wf, s) && r in s.rows && s.rows[r].status == Waiting
    requires row == s.rows[r].(status := Running, waitUntil := false, waitResult := w)
    ensures Inv(wf, WithRow(s, r, row, [Woken(w)]))
  {
    assert RunOk(wf, r, s.rows[r], s.initial[r], s.log[r], s.nodes);
    WokenFits(wf, r, PhaseOf(s.log[r]), s.rows[r], w, s.nodes);
    RunWriteKeeps(wf, s, r, row, Woken(w));
  }

  lemma ClaimKeeps(wf: Workflow, s: System, me: Replica, r: RunId)
    requires Inv(wf, s)
    ensures Inv(wf, DoClaim(s, me, r))
  {
    if r in s.rows && Claimable(s.rows[r]) && NoDriveInFlight(s, me, r) {
      ClaimRuns(wf, s, me, r);
      ClaimDrives(wf, s, me, r);
    }
  }

  lemma ClaimRuns(wf: Workflow, s: System, me: Replica, r: RunId)
    requires RunsOk(wf, s) && r in s.rows && Claimable(s.rows[r])
    ensures RunsOk(wf, ClaimAnyway(s, me, r))
  {
    assert RunOk(wf, r, s.rows[r], s.initial[r], s.log[r], s.nodes);
    assert RunOk(wf, r, ClaimRow(s.rows[r], me), s.initial[r], s.log[r], s.nodes);
  }

  lemma ClaimDrives(wf: Workflow, s: System, me: Replica, r: RunId)
    requires DrivesOk(wf, s) && r in s.rows && Claimable(s.rows[r]) && NoDriveInFlight(s, me, r)
    ensures DrivesOk(wf, ClaimAnyway(s, me, r))
  {
    var s' := ClaimAnyway(s, me, r);
    forall d | d in s'.drivers
      ensures DriverFits(wf, s'.drivers[d], s'.rows[s'.drivers[d].run], s'.nodes)
    {
      if d in s.drivers {
        assert DriverFits(wf, s.drivers[d], s.rows[s.drivers[d].run], s.nodes);
      }
    }
  }

  lemma DropKeeps(wf: Workflow, s: System, d: DriveId)
    requires Inv(wf, s)
    ensures Inv(wf, Drop(s, d))
  {
  }

  lemma GotoKeeps(wf: Workflow, s: System, d: DriveId, pc: Pc)
    requires Inv(wf, s) && d in s.drivers
    requires DriverFits(wf, s.drivers[d].(pc := pc), s.rows[s.drivers[d].run], s.nodes)
    ensures Inv(wf, Goto(s, d, pc))
  {
  }

  lemma NodesKeep(wf: Workflow, s: System, k: NodeKey)
    requires Inv(wf, s)
    ensures Inv(wf, s.(nodes := s.nodes + {k}))
  {
  }

  /** A write that passed the fence: every other drive of the run belongs to another replica. */
  lemma FencedWriteKeeps(wf: Workflow, s: System, d: DriveId, row: Row, e: Event, then': Option<Pc>)
    requires Inv(wf, s) && Live(s, d)
    requires var dr := s.drivers[d];
             && s.rows[dr.run].owner == Some(dr.replica)
             && (row.owner == Some(dr.replica) || row.owner == None)
             && RowFits(wf, dr.run, row, After(PhaseOf(s.log[dr.run]), e), s.nodes)
             && Computed(wf, dr.run, e)
             && Follows(s.rows[dr.run].state, e, row.state)
             && (then'.Some? ==> DriverFits(wf, dr.(pc := then'.value), row, s.nodes))
    ensures Inv(wf, Write(s, d, Some(row), e, then'))
  {
    RunWriteKeeps(wf, s, s.drivers[d].run, row, e);
    FencedDrivesKeep(wf, s, d, row, e, then');
  }

  lemma FencedDrivesKeep(wf: Workflow, s: System, d: DriveId, row: Row, e: Event, then': Option<Pc>)
    requires DrivesOk(wf, s) && Live(s, d)
    requires s.rows[s.drivers[d].run].owner == Some(s.drivers[d].replica)
    requires row.owner == Some(s.drivers[d].replica) || row.owner == None
    requires then'.Some? ==> DriverFits(wf, s.drivers[d].(pc := then'.value), row, s.nodes)
    ensures DrivesOk(wf, Write(s, d, Some(row), e, then'))
  {
  }

  lemma ReleaseKeeps(wf: Workflow, s: System, d: DriveId)
    requires Inv(wf, s)
    ensures Inv(wf, DoRelease(s, d))
  {
    if Live(s, d) {
      var r := s.drivers[d].run;
      var row := ReleaseRow(s.rows[r], s.drivers[d].replica);
      QuietWriteKeeps(wf, s, r, row);
      DropKeeps(wf, s.(rows := s.rows[r := row]), d);
    }
  }

  lemma BeginRunningKeeps(wf: Workflow, s: System, d: DriveId)
    requires Inv(wf, s)
    ensures Inv(wf, DoBeginRunning(s, d))
  {
    if Live(s, d) && s.drivers[d].pc.Read? && Proceeds(s.drivers[d].pc.snap) {
      var dr := s.drivers[d];
      var row := s.rows[dr.run];
      assert RunOk(wf, dr.run, s.rows[dr.run], s.initial[dr.run], s.log[dr.run], s.nodes);
      if dr.pc.snap.status != Pending {
        GotoKeeps(wf, s, d, Started(dr.pc.snap));
      } else if |LiveOthers(s.rows, dr.run)| >= row.maxRuns {
        ReleaseKeeps(wf, s, d);
      } else if row.owner == Some(dr.replica) {
        FencedWriteKeeps(wf, s, d, StartRow(row, dr.replica), Start, Some(Started(dr.pc.snap)));
      } else {
        GotoKeeps(wf, s, d, Started(dr.pc.snap));
      }
    }
  }

  lemma BeginWaitKeeps(wf: Workflow, s: System, d: DriveId)
    requires Inv(wf, s)
    ensures Inv(wf, DoBeginWait(wf, s, d))
  {
    if Live(s, d) && s.drivers[d].pc.Started? {
      var dr := s.drivers[d];
      var snap := dr.pc.snap;
      if snap.state.At? && wf.render(dr.run, snap.state) == Wait {
        assert RunOk(wf, dr.run, s.rows[dr.run], s.initial[dr.run], s.log[dr.run], s.nodes);
        GotoKeeps(wf, s, d, AtWait(snap, KeyOf(dr.run, snap.state) in s.nodes));
      }
    }
  }

  lemma BeginWorkKeeps(wf: Workflow, s: System, d: DriveId)
    requires Inv(wf, s)
    ensures Inv(wf, DoBeginWork(wf, s, d))
  {
    if Live(s, d) && s.drivers[d].pc.Started? {
      var dr := s.drivers[d];
      var snap := dr.pc.snap;
      if snap.state.At? && wf.render(dr.run, snap.state).Work? {
        NodesKeep(wf, s, KeyOf(dr.run, snap.state));
        GotoKeeps(wf, s.(nodes := s.nodes + {KeyOf(dr.run, snap.state)}), d, Working(snap));
      }
    }
  }

  /** A result on a live row means the run was woken with it and has not advanced since. */
  lemma ResultMeansAwake(wf: Workflow, r: RunId, row: Row, init: RunState, es: seq<Event>, nodes: set<NodeKey>)
    requires RunOk(wf, r, row, init, es, nodes) && row.waitResult.Some? && !row.finished
    ensures PhaseOf(es).Awake? && PhaseOf(es).result == row.waitResult
  {
  }

  lemma FinishWaitKeeps(wf: Workflow, s: System, d: DriveId)
    requires Inv(wf, s)
    ensures Inv(wf, DoFinishWait(wf, s, d))
  {
    if Live(s, d) && s.drivers[d].pc.AtWait? {
      var dr := s.drivers[d];
      var snap := dr.pc.snap;
      var row := s.rows[dr.run];
      if !Fenced(row, dr.replica) {
        DropKeeps(wf, s, d);
      } else if snap.waitResult.Some? && dr.pc.existing {
        var outputs := OutputsOf(snap.waitResult.value);
        var next := wf.advance(dr.run, snap.state, outputs);
        ResultMeansAwake(wf, dr.run, row, s.initial[dr.run], s.log[dr.run], s.nodes);
        if next.Some? {
          var row' := FinishLocalRow(row, dr.replica, next.value).value;
          var e := Advanced(snap.state, outputs, next.value, snap.waitResult);
          AwakeAdvances(wf, dr.run, PhaseOf(s.log[dr.run]), row, dr.replica, snap.state, next.value, s.nodes);
          FencedWriteKeeps(wf, s, d, row', e, if next.value.Over? then None else Some(Top));
        }
      }
    }
  }

  lemma AwakeAdvances(wf: Workflow, r: RunId, p: Phase, row: Row, me: Replica, base: RunState, next: RunState, nodes: set<NodeKey>)
    requires p.Awake? && p.result.Some? && row.waitResult == p.result && Fenced(row, me)
    ensures RowFits(wf, r, FinishLocalRow(row, me, next).value,
                    After(p, Advanced(base, OutputsOf(p.result.value), next, p.result)), nodes)
  {
  }

  lemma ParkKeeps(wf: Workflow, s: System, d: DriveId, timeout: bool)
    requires Inv(wf, s)
    ensures Inv(wf, DoPark(s, d, timeout))
  {
    if Live(s, d) && s.drivers[d].pc.AtWait? {
      var dr := s.drivers[d];
      var row := s.rows[dr.run];
      if !Fenced(row, dr.replica) {
        DropKeeps(wf, s, d);
      } else if !(dr.pc.snap.waitResult.Some? && dr.pc.existing) {
        var key := KeyOf(dr.run, dr.pc.snap.state);
        assert RunOk(wf, dr.run, s.rows[dr.run], s.initial[dr.run], s.log[dr.run], s.nodes);
        NodesKeep(wf, s, key);
        FencedWriteKeeps(wf, s.(nodes := s.nodes + {key}), d, ParkRow(row, dr.replica, key, timeout).value,
                         Parked(dr.pc.snap.state, key), None);
      }
    }
  }

  lemma FinishWorkKeeps(wf: Workflow, s: System, d: DriveId, outputs: Json)
    requires Inv(wf, s)
    ensures Inv(wf, DoFinishWork(wf, s, d, outputs))
  {
    if Live(s, d) && s.drivers[d].pc.Working? {
      var dr := s.drivers[d];
      var snap := dr.pc.snap;
      var row := s.rows[dr.run];
      var kind := wf.render(dr.run, snap.state);
      var next := wf.advance(dr.run, snap.state, outputs);
      if !Fenced(row, dr.replica) {
        DropKeeps(wf, s, d);
      } else if kind.Work? && next.Some? {
        assert RunOk(wf, dr.run, s.rows[dr.run], s.initial[dr.run], s.log[dr.run], s.nodes);
        FencedWriteKeeps(wf, s, d,
                         (if kind.local then FinishLocalRow(row, dr.replica, next.value)
                          else FinishNodeRow(row, dr.replica, next.value)).value,
                         Advanced(snap.state, outputs, next.value, None),
                         if next.value.Over? then None else Some(Top));
      }
    }
  }

  /** A live run may end from every phase but asleep, where nobody owns it. */
  lemma EndFits(wf: Workflow, r: RunId, p: Phase, row: Row, me: Replica, base: RunState, how: EndStatus, reason: Json,
                nodes: set<NodeKey>)
    requires RowFits(wf, r, row, p, nodes) && Fenced(row, me) && base == row.state
    ensures var next := base.EndedAs(how, reason);
            var row' := EndRow(row, me, how, if base.Unreadable? then None else Some(next)).value;
            row'.state == next && RowFits(wf, r, row', After(p, Finished(base, how, next)), nodes)
  {
  }

  lemma EndKeeps(wf: Workflow, s: System, d: DriveId, how: EndStatus, reason: Json)
    requires Inv(wf, s)
    ensures Inv(wf, DoEnd(wf, s, d, how, reason))
  {
    if Live(s, d) && MayEnd(wf, s.drivers[d].run, s.drivers[d].pc, how) {
      var dr := s.drivers[d];
      var row := s.rows[dr.run];
      var base := dr.pc.snap.state;
      var next := base.EndedAs(how, reason);
      if !Fenced(row, dr.replica) {
        DropKeeps(wf, s, d);
      } else {
        assert RunOk(wf, dr.run, s.rows[dr.run], s.initial[dr.run], s.log[dr.run], s.nodes);
        EndFits(wf, dr.run, PhaseOf(s.log[dr.run]), row, dr.replica, base, how, reason, s.nodes);
        FencedWriteKeeps(wf, s, d, EndRow(row, dr.replica, how, if base.Unreadable? then None else Some(next)).value,
                         Finished(base, how, next), None);
      }
    }
  }

  lemma SweepKeeps(wf: Workflow, s: System, r: RunId, due: bool)
    requires Inv(wf, s)
    ensures Inv(wf, DoSweep(s, r, due))
  {
    if r in s.rows && Wakes(s.rows[r], due) {
      WakeKeeps(wf, s, r, WakeRow(s.rows[r], due), SweepResult(s.rows[r]));
    }
  }

  lemma DeliverKeeps(wf: Workflow, s: System, r: RunId, key: NodeKey, w: WaitResult)
    requires Inv(wf, s)
    ensures Inv(wf, DoDeliver(s, r, key, w))
  {
    if r in s.rows && s.rows[r].status == Waiting && s.rows[r].waitNode == Some(key) {
      WakeKeeps(wf, s, r, DeliverRow(s.rows[r], key, w), Some(w));
    }
  }

  lemma LoadKeeps(wf: Workflow, s: System, d: DriveId)
    requires Inv(wf, s)
    ensures Inv(wf, DoLoad(s, d)) && Inv(wf, DoReload(s, d))
  {
    if Live(s, d) {
      var snap := Snap(s.rows[s.drivers[d].run]);
      if s.drivers[d].pc == Top {
        GotoKeeps(wf, s, d, Read(snap));
      } else if s.drivers[d].pc.Working? {
        GotoKeeps(wf, s, d, Stuck(snap));
      }
    }
  }

  lemma SetDeadlineKeeps(wf: Workflow, s: System, d: DriveId)
    requires Inv(wf, s)
    ensures Inv(wf, DoSetDeadline(s, d))
  {
    if Live(s, d) && s.drivers[d].pc.Read? {
      var dr := s.drivers[d];
      QuietWriteKeeps(wf, s, dr.run, DeadlineRow(s.rows[dr.run]));
      GotoKeeps(wf, s.(rows := s.rows[dr.run := DeadlineRow(s.rows[dr.run])]), d, Read(dr.pc.snap.(hasDeadline := true)));
    }
  }

  /** Steps that touch only flags of a row. */
  lemma FlagStepKeeps(wf: Workflow, s: System, l: Label)
    requires Inv(wf, s) && (l.RequestStop? || l.PassDeadline? || l.ExpireLease? || l.Renew?)
    ensures Inv(wf, Step(wf, s, l))
  {
    match l
    case RequestStop(r) => if r in s.rows { QuietWriteKeeps(wf, s, r, StopRow(s.rows[r])); }
    case PassDeadline(r) => if r in s.rows { QuietWriteKeeps(wf, s, r, s.rows[r].(pastDeadline := true)); }
    case ExpireLease(r) => if r in s.rows { QuietWriteKeeps(wf, s, r, s.rows[r].(leased := false)); }
    case Renew(d) =>
      if Live(s, d) {
        QuietWriteKeeps(wf, s, s.drivers[d].run, RenewRow(s.rows[s.drivers[d].run], s.drivers[d].replica));
      }
  }

  lemma StepKeeps(wf: Workflow, s: System, l: Label)
    requires Inv(wf, s)
    ensures Inv(wf, Step(wf, s, l))
  {
    match l
    case Create(r, row) => CreateKeeps(wf, s, r, row);
    case Sweep(r, due) => SweepKeeps(wf, s, r, due);
    case Deliver(r, key, w) => DeliverKeeps(wf, s, r, key, w);
    case Claim(me, r) => ClaimKeeps(wf, s, me, r);
    case Abandon(d) => DropKeeps(wf, s, d);
    case Release(d) => ReleaseKeeps(wf, s, d);
    case Load(d) => LoadKeeps(wf, s, d);
    case SetDeadline(d) => SetDeadlineKeeps(wf, s, d);
    case BeginRunning(d) => BeginRunningKeeps(wf, s, d);
    case BeginWait(d) => BeginWaitKeeps(wf, s, d);
    case BeginWork(d) => BeginWorkKeeps(wf, s, d);
    case FinishWait(d) => FinishWaitKeeps(wf, s, d);
    case Park(d, timeout) => ParkKeeps(wf, s, d, timeout);
    case FinishWork(d, outputs) => FinishWorkKeeps(wf, s, d, outputs);
    case Reload(d) => LoadKeeps(wf, s, d);
    case End(d, how, reason) => EndKeeps(wf, s, d, how, reason);
    case _ => FlagStepKeeps(wf, s, l);
  }

  lemma {:induction false} RunKeeps(wf: Workflow, s: System, ls: seq<Label>)
    requires Inv(wf, s)
    ensures Inv(wf, Run(wf, s, ls))
  {
    if ls != [] {
      RunKeeps(wf, s, ls[..|ls| - 1]);
      StepKeeps(wf, Run(wf, s, ls[..|ls| - 1]), ls[|ls| - 1]);
    }
  }
}
