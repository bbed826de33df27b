/**
 The `tracks.runs` table and every SQL statement the run executor sends to it
 (tracks/src/exec.rs). Each statement is a function from a row to the row after it; `None` from a
 fenced write means that no row matched, which the executor reads as a lost lease. The class
 `Table` is the table the statements change in place.
 */
module RunTable {
  import opened Wrappers

  type RunId = nat
  type Replica = nat
  type NodeId = string
  /** A JSON document this model does not look into. */
  type Json = string

  datatype EndStatus = Done | Failed | Cancelled

  datatype Status = Pending | Running | Waiting | Ended(how: EndStatus)

  /** `RunState` of ez-workflow as the executor sees it; `Unreadable` is JSON that does not parse. */
  datatype RunState =
    | At(node: NodeId, visits: map<NodeId, nat>, data: Json)
    | Over(how: EndStatus, data: Json)
    | Unreadable(text: Json)
  {
    function Visit(): nat
      requires At?
    {
      if node in visits then visits[node] else 1
    }

    /** What `end_run` makes of the state: `cancel` and `fail` leave an ended state alone. */
    function EndedAs(how: EndStatus, reason: Json): RunState {
      if At? && how != Done then Over(how, reason) else this
    }
  }

  /** A row of `node_runs`, named by its unique key. */
  datatype NodeKey = NodeKey(run: RunId, node: NodeId, visit: nat)

  function KeyOf(r: RunId, s: RunState): NodeKey
    requires s.At?
  {
    NodeKey(r, s.node, s.Visit())
  }

  /** `wait_result`: set by an event (the router, or a resume by hand) or by the timeout sweep. */
  datatype WaitResult = ByEvent(event: int, body: Json) | TimedOut

  function OutputsOf(w: WaitResult): Json {
    match w
    case ByEvent(_, body) => body
    case TimedOut => "{event: null, timed_out: true}"
  }

  /** `leased` is "`lease_until` is set and not over"; `due` is "`wait_until` is set and over". */
  datatype Row = Row(
    project: string, workflow: string, test: bool, maxRuns: nat, created: nat,
    status: Status, state: RunState, finished: bool,
    stopRequested: bool, hasDeadline: bool, pastDeadline: bool,
    owner: Option<Replica>, leased: bool,
    waitNode: Option<NodeKey>, waitUntil: bool, waitResult: Option<WaitResult>)

  /** A run as the router inserts it. */
  predicate Fresh(row: Row) {
    && row.status == Pending && !row.finished && !row.state.Unreadable?
    && row.owner == None && !row.leased && !row.hasDeadline && !row.pastDeadline
    && row.waitNode == None && !row.waitUntil && row.waitResult == None
  }

  // ----- leases -----

  predicate Claimable(row: Row) {
    !row.finished && (row.status == Pending || row.status == Running) && !row.leased
  }

  function ClaimRow(row: Row, me: Replica): Row {
    row.(owner := Some(me), leased := true)
  }

  /** `release` sets `lease_until` of a row this replica still owns, finished or not. */
  function ReleaseRow(row: Row, me: Replica): Row {
    if row.owner == Some(me) then row.(leased := true) else row
  }

  predicate Fenced(row: Row, me: Replica) {
    row.owner == Some(me) && !row.finished
  }

  /** The heartbeat sets it under the fence. */
  function RenewRow(row: Row, me: Replica): Row {
    if Fenced(row, me) then row.(leased := true) else row
  }

  // ----- writes of the driver -----

  /** The flip to `running`; it tests the owner only, neither the status nor `finished_at`. */
  function StartRow(row: Row, me: Replica): Row {
    if row.owner == Some(me) then row.(status := Running) else row
  }

  function EndRow(row: Row, me: Replica, how: EndStatus, state: Option<RunState>): Option<Row> {
    if Fenced(row, me)
    then Some(row.(status := Ended(how), finished := true, leased := false,
                   state := if state.Some? then state.value else row.state))
    else None
  }

  function ParkRow(row: Row, me: Replica, key: NodeKey, timeout: bool): Option<Row> {
    if Fenced(row, me)
    then Some(row.(status := Waiting, waitNode := Some(key), waitResult := None,
                   owner := None, leased := false, waitUntil := timeout))
    else None
  }

  function StatusOf(next: RunState): Status {
    if next.Over? then Ended(next.how) else Running
  }

  /** `finish_node`: outcome of a sandbox step. It leaves the wait columns alone. */
  function FinishNodeRow(row: Row, me: Replica, next: RunState): Option<Row> {
    if Fenced(row, me)
    then Some(row.(state := next, status := StatusOf(next), finished := next.Over?,
                   leased := row.leased && !next.Over?))
    else None
  }

  /** `finish_local`: outcome of an action or a wait; also clears the wait columns. */
  function FinishLocalRow(row: Row, me: Replica, next: RunState): Option<Row> {
    if Fenced(row, me)
    then Some(row.(state := next, status := StatusOf(next), finished := next.Over?,
                   leased := row.leased && !next.Over?,
                   waitNode := None, waitResult := None, waitUntil := false))
    else None
  }

  function DeadlineRow(row: Row): Row {
    row.(hasDeadline := true)
  }

  // ----- writes of others -----

  predicate Wakes(row: Row, due: bool) {
    && row.status == Waiting && !row.finished
    && (row.stopRequested || (row.waitUntil && due) || row.pastDeadline)
  }

  function SweepResult(row: Row): Option<WaitResult> {
    if row.stopRequested || row.pastDeadline then None else Some(TimedOut)
  }

  /** The timeout sweep on one row. */
  function WakeRow(row: Row, due: bool): Row {
    if Wakes(row, due)
    then row.(status := Running, waitUntil := false, waitResult := SweepResult(row))
    else row
  }

  /** What becomes of a row in the sweep: parked, unfinished runs that are stopped, past their deadline or due
      go on, the last with the result of a timeout, the others with none; no other row changes. */
  predicate Swept(was: Row, due: bool, now: Row) {
    if was.status == Waiting && !was.finished && (was.stopRequested || was.pastDeadline || (was.waitUntil && due))
    then && now == was.(status := Running, waitUntil := false, waitResult := now.waitResult)
         && (was.stopRequested || was.pastDeadline ==> now.waitResult == None)
         && (!was.stopRequested && !was.pastDeadline ==> now.waitResult == Some(TimedOut))
    else now == was
  }

  lemma WakesOnlyDue(row: Row, due: bool)
    ensures Swept(row, due, WakeRow(row, due)) && (Wakes(row, due) <==> WakeRow(row, due) != row)
  {
  }

  lemma SameSet(was: map<RunId, Row>, now: map<RunId, Row>, isDue: set<RunId>, hit: set<RunId>)
    requires now.Keys == was.Keys && forall r | r in now :: now[r] == WakeRow(was[r], r in isDue)
    requires hit == set r | r in was && Wakes(was[r], r in isDue)
    ensures hit == set r | r in was && now[r] != was[r]
  {
    forall r | r in was ensures Wakes(was[r], r in isDue) <==> now[r] != was[r] {
      WakesOnlyDue(was[r], r in isDue);
    }
  }

  /** The router's (and the manual resume's) flip. */
  function DeliverRow(row: Row, key: NodeKey, w: WaitResult): Row {
    if row.status == Waiting && row.waitNode == Some(key)
    then row.(status := Running, waitUntil := false, waitResult := Some(w))
    else row
  }

  function StopRow(row: Row): Row {
    if row.finished then row else row.(stopRequested := true)
  }

  /** Rows `start_allowed` counts: live, not a test, not the run itself. */
  predicate Counted(row: Row, project: string, workflow: string) {
    && row.project == project && row.workflow == workflow
    && row.status == Running && !row.finished && !row.test
  }

  ghost function LiveOthers(rows: map<RunId, Row>, r: RunId): set<RunId>
    requires r in rows
  {
    set x | x in rows && x != r && Counted(rows[x], rows[r].project, rows[r].workflow)
  }

  // ----- the table -----

  class Table {
    var rows: map<RunId, Row>
    var nodes: set<NodeKey>

    constructor ()
      ensures rows == map[] && nodes == {}
    {
      rows, nodes := map[], {};
    }

    /** Takes the lease of the oldest claimable run. */
    method Claim(me: Replica) returns (id: Option<RunId>)
      modifies this`rows
      ensures id.None? ==> rows == old(rows) && forall r | r in rows :: !Claimable(rows[r])
      ensures id.Some? ==>
                && id.value in old(rows) && Claimable(old(rows)[id.value])
                && (forall r | r in old(rows) && Claimable(old(rows)[r]) ::
                      old(rows)[id.value].created <= old(rows)[r].created)
                && rows == old(rows)[id.value := ClaimRow(old(rows)[id.value], me)]
      ensures id.Some? ==> rows[id.value] == old(rows)[id.value].(owner := Some(me), leased := true)
      ensures id.None? <==>
                forall r | r in old(rows) && !old(rows)[r].finished && !old(rows)[r].leased ::
                  old(rows)[r].status != Pending && old(rows)[r].status != Running
    {
      id := None;
      var todo := rows.Keys;
      while todo != {}
        invariant todo <= rows.Keys
        invariant id.Some? ==> id.value in rows && Claimable(rows[id.value])
        invariant forall r | r in rows && r !in todo && Claimable(rows[r]) ::
                    id.Some? && rows[id.value].created <= rows[r].created
        decreases todo
      {
        var r :| r in todo;
        todo := todo - {r};
        if Claimable(rows[r]) && (id.None? || rows[r].created < rows[id.value].created) {
          id := Some(r);
        }
      }
      if id.Some? {
        rows := rows[id.value := ClaimRow(rows[id.value], me)];
      }
    }

    /** A run this replica still owns cannot be claimed by anybody until the lease just set runs out, and
        nothing else about it changes; a run it lost is left alone. */
    method Release(r: RunId, me: Replica)
      requires r in rows
      modifies this`rows
      ensures rows == old(rows)[r := ReleaseRow(old(rows)[r], me)]
      ensures old(rows)[r].owner == Some(me) ==> rows[r].leased && !Claimable(rows[r])
      ensures old(rows)[r].owner != Some(me) ==> rows == old(rows)
      ensures rows.Keys == old(rows).Keys && forall x | x in rows && x != r :: rows[x] == old(rows)[x]
      ensures rows[r] == old(rows)[r].(leased := rows[r].leased) && (Fenced(rows[r], me) <==> Fenced(old(rows)[r], me))
    {
      if rows[r].owner == Some(me) {
        rows := rows[r := rows[r].(leased := true)];
      }
    }

    /** The heartbeat: tells the drive that its lease is lost exactly if all its later writes would be
        refused; a run it keeps cannot be claimed until the renewed lease runs out. */
    method Renew(r: RunId, me: Replica) returns (lost: bool)
      requires r in rows
      modifies this`rows
      ensures rows == old(rows)[r := RenewRow(old(rows)[r], me)]
      ensures lost <==> !Fenced(rows[r], me)
      ensures lost ==> rows == old(rows)
      ensures lost ==> forall how, state :: EndRow(rows[r], me, how, state) == None
      ensures lost ==> forall key, timeout :: ParkRow(rows[r], me, key, timeout) == None
      ensures lost ==> forall next :: FinishNodeRow(rows[r], me, next) == None && FinishLocalRow(rows[r], me, next) == None
      ensures !lost ==> rows[r].leased && !Claimable(rows[r]) && rows[r] == old(rows)[r].(leased := true)
    {
      lost := rows[r].owner != Some(me) || rows[r].finished;
      if !lost {
        rows := rows[r := rows[r].(leased := true)];
      }
    }

    /** Wakes every parked run that is due; `isDue` says whose `wait_until` is over. A wait that only timed
        out gets the result that says so; a run that was stopped or is past its deadline gets none. */
    method WakeWaiting(isDue: set<RunId>) returns (woken: nat)
      modifies this`rows
      ensures rows.Keys == old(rows).Keys
      ensures forall r | r in rows :: rows[r] == WakeRow(old(rows)[r], r in isDue)
      ensures woken == |set r | r in old(rows) && Wakes(old(rows)[r], r in isDue)|
      ensures forall r | r in rows :: Swept(old(rows)[r], r in isDue, rows[r])
      ensures woken == |set r | r in old(rows) && rows[r] != old(rows)[r]|
    {
      woken := 0;
      var todo := rows.Keys;
      ghost var hit: set<RunId> := {};
      while todo != {}
        invariant todo <= old(rows).Keys && rows.Keys == old(rows).Keys
        invariant forall r | r in todo :: rows[r] == old(rows)[r]
        invariant forall r | r in rows && r !in todo :: rows[r] == WakeRow(old(rows)[r], r in isDue)
        invariant hit == set r | r in old(rows) && r !in todo && Wakes(old(rows)[r], r in isDue)
        invariant woken == |hit|
        decreases todo
      {
        var r :| r in todo;
        todo := todo - {r};
        if Wakes(rows[r], r in isDue) {
          rows := rows[r := rows[r].(status := Running, waitUntil := false, waitResult := SweepResult(rows[r]))];
          hit, woken := hit + {r}, woken + 1;
        }
      }
      assert hit == set r | r in old(rows) && Wakes(old(rows)[r], r in isDue);
      forall r | r in rows ensures Swept(old(rows)[r], r in isDue, rows[r]) {
        WakesOnlyDue(old(rows)[r], r in isDue);
      }
      SameSet(old(rows), rows, isDue, hit);
    }

    /** The `max_runs` check and the flip, one transaction under the advisory lock. */
    method StartAllowed(r: RunId, me: Replica) returns (ok: bool)
      requires r in rows
      modifies this`rows
      ensures ok <==> |LiveOthers(old(rows), r)| < old(rows)[r].maxRuns
      ensures rows == if ok then old(rows)[r := StartRow(old(rows)[r], me)] else old(rows)
      ensures var was := old(rows)[r];
              ok <==> |set x | x in old(rows) && x != r && old(rows)[x].project == was.project
                               && old(rows)[x].workflow == was.workflow && old(rows)[x].status == Running
                               && !old(rows)[x].finished && !old(rows)[x].test| < was.maxRuns
      ensures rows == if ok && old(rows)[r].owner == Some(me) then old(rows)[r := old(rows)[r].(status := Running)]
                      else old(rows)
    {
      var live := 0;
      var todo := rows.Keys - {r};
      ghost var seen: set<RunId> := {};
      while todo != {}
        invariant todo <= rows.Keys - {r}
        invariant seen == set x | x in rows && x != r && x !in todo && Counted(rows[x], rows[r].project, rows[r].workflow)
        invariant live == |seen|
        decreases todo
      {
        var x :| x in todo;
        todo := todo - {x};
        if Counted(rows[x], rows[r].project, rows[r].workflow) {
          seen, live := seen + {x}, live + 1;
        }
      }
      assert seen == LiveOthers(rows, r);
      assert seen == set x | x in rows && x != r && rows[x].project == rows[r].project
                             && rows[x].workflow == rows[r].workflow && rows[x].status == Running
                             && !rows[x].finished && !rows[x].test;
      ok := live < rows[r].maxRuns;
      if ok && rows[r].owner == Some(me) {
        rows := rows[r := rows[r].(status := Running)];
      }
    }

    /** Ends the run; `false` is a lost lease. */
    method EndRun(r: RunId, me: Replica, state: RunState, how: EndStatus, reason: Json) returns (ok: bool)
      requires r in rows
      modifies this`rows
      ensures ok <==> Fenced(old(rows)[r], me)
      ensures !ok ==> rows == old(rows)
      ensures ok ==> rows == old(rows)[r := EndRow(old(rows)[r], me, how,
                                                   if state.Unreadable? then None else Some(state.EndedAs(how, reason))).value]
      ensures ok ==> rows[r] == old(rows)[r].(status := Ended(how), finished := true, leased := false, state := rows[r].state)
      ensures ok ==> rows[r].state == if state.Unreadable? then old(rows)[r].state
                                      else if state.At? && how != Done then Over(how, reason) else state
    {
      var next := state;
      if state.At? {
        match how {
          case Cancelled => next := Over(Cancelled, reason);
          case Failed => next := Over(Failed, reason);
          case Done =>
        }
      }
      ok := rows[r].owner == Some(me) && !rows[r].finished;
      if ok {
        var keep := if next.Unreadable? then rows[r].state else next;
        rows := rows[r := rows[r].(status := Ended(how), finished := true, leased := false, state := keep)];
      }
    }

    /** Parks the run: the node row and the run row in one transaction, rolled back on a lost lease. */
    method Park(r: RunId, me: Replica, key: NodeKey, timeout: bool) returns (ok: bool)
      requires r in rows
      modifies this
      ensures ok <==> Fenced(old(rows)[r], me)
      ensures !ok ==> rows == old(rows) && nodes == old(nodes)
      ensures ok ==> nodes == old(nodes) + {key} && rows == old(rows)[r := ParkRow(old(rows)[r], me, key, timeout).value]
      ensures ok <==> old(rows)[r].owner == Some(me) && !old(rows)[r].finished
      ensures ok ==> rows[r] == old(rows)[r].(status := Waiting, waitNode := Some(key), waitResult := None,
                                              owner := None, leased := false, waitUntil := timeout)
    {
      var before := nodes;
      nodes := nodes + {key};
      ok := rows[r].owner == Some(me) && !rows[r].finished;
      if ok {
        rows := rows[r := rows[r].(status := Waiting, waitNode := Some(key), waitResult := None,
                                   owner := None, leased := false, waitUntil := timeout)];
      } else {
        nodes := before;
      }
    }

    /** Writes the advanced state; `local` also clears the wait columns. `false` is a lost lease. */
    method Finish(r: RunId, me: Replica, next: RunState, local: bool) returns (ok: bool)
      requires r in rows
      modifies this`rows
      ensures ok <==> Fenced(old(rows)[r], me)
      ensures !ok ==> rows == old(rows)
      ensures ok && local ==> rows == old(rows)[r := FinishLocalRow(old(rows)[r], me, next).value]
      ensures ok && !local ==> rows == old(rows)[r := FinishNodeRow(old(rows)[r], me, next).value]
      ensures ok ==> && rows[r].state == next && (rows[r].finished <==> next.Over?)
                     && rows[r].status == (if next.Over? then Ended(next.how) else Running)
                     && (rows[r].leased <==> old(rows)[r].leased && !next.Over?)
      ensures ok && local ==> rows[r].waitNode == None && rows[r].waitResult == None && !rows[r].waitUntil
      ensures ok && !local ==> && rows[r].waitNode == old(rows)[r].waitNode && rows[r].waitResult == old(rows)[r].waitResult
                               && rows[r].waitUntil == old(rows)[r].waitUntil
      ensures ok ==> rows[r].owner == Some(me) && rows[r].stopRequested == old(rows)[r].stopRequested
    {
      ok := rows[r].owner == Some(me) && !rows[r].finished;
      if ok {
        var row := rows[r].(state := next, status := if next.Over? then Ended(next.how) else Running,
                            finished := next.Over?);
        if next.Over? {
          row := row.(leased := false);
        }
        if local {
          row := row.(waitNode := None, waitResult := None, waitUntil := false);
        }
        rows := rows[r := row];
      }
    }
  }
}
