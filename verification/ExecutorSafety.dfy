/** What the executor promises over every run of the transition system in `Executor`. */
module ExecutorSafety {
  import opened Wrappers
  import opened RunTable
  import opened Executor

  // ----- no transition is lost -----

  lemma {:induction false} ReplayedPrefix(init: RunState, es: seq<Event>, i: nat)
    requires Replay(init, es).Some? && i < |es|
    ensures Replay(init, es[..i]).Some? && Replay(init, es[..i + 1]).Some?
    ensures Follows(Replay(init, es[..i]).value, es[i], Replay(init, es[..i + 1]).value)
  {
    if i == |es| - 1 {
      assert es[..i + 1] == es;
    } else {
      var front := es[..|es| - 1];
      ReplayedPrefix(init, front, i);
      assert front[..i] == es[..i] && front[..i + 1] == es[..i + 1];
    }
  }

  /** Write number `i` was computed, by `advance` or `end_run`, from the state persisted just before
      it, and is the state persisted just after it. */
  predicate BuiltOn(wf: Workflow, r: RunId, init: RunState, es: seq<Event>, i: nat)
    requires i < |es|
  {
    && Computed(wf, r, es[i])
    && Replay(init, es[..i]).Some? && Replay(init, es[..i + 1]).Some?
    && Follows(Replay(init, es[..i]).value, es[i], Replay(init, es[..i + 1]).value)
  }

  /** Every accepted write of the run builds on the one before it, and the row holds what the last one
      wrote. */
  ghost predicate Lossless(wf: Workflow, s: System, r: RunId) {
    && r in s.rows && r in s.initial && r in s.log
    && Replay(s.initial[r], s.log[r]) == Some(s.rows[r].state)
    && forall i | 0 <= i < |s.log[r]| :: BuiltOn(wf, r, s.initial[r], s.log[r], i)
  }

  /** No transition of any run is lost. */
  lemma {:induction false} NoTransitionLost(wf: Workflow, ls: seq<Label>, r: RunId)
    requires r in Run(wf, INIT, ls).rows
    ensures Lossless(wf, Run(wf, INIT, ls), r)
  {
    RunKeeps(wf, INIT, ls);
    var s := Run(wf, INIT, ls);
    assert RunOk(wf, r, s.rows[r], s.initial[r], s.log[r], s.nodes);
    forall i | 0 <= i < |s.log[r]|
      ensures BuiltOn(wf, r, s.initial[r], s.log[r], i)
    {
      ReplayedPrefix(s.initial[r], s.log[r], i);
    }
  }

  // ----- waits -----

  /** A log that is not `Wrong` went right at each event. */
  lemma {:induction false} RightAt(es: seq<Event>, i: nat)
    requires PhaseOf(es) != Wrong && i < |es|
    ensures PhaseOf(es[..i + 1]) == After(PhaseOf(es[..i]), es[i]) && PhaseOf(es[..i + 1]) != Wrong
  {
    assert es[..i + 1][..i] == es[..i];
    if i == |es| - 1 {
      assert es[..i + 1] == es;
    } else {
      RightAt(es[..|es| - 1], i);
      assert es[..|es| - 1][..i] == es[..i] && es[..|es| - 1][..i + 1] == es[..i + 1];
    }
  }

  /** What the last event of a log tells about its phase. */
  lemma LastEvent(es: seq<Event>)
    requires PhaseOf(es) != Wrong
    ensures PhaseOf(es).Sleeping? ==> es != [] && es[|es| - 1].Parked?
    ensures PhaseOf(es).Awake? ==> es != [] && es[|es| - 1] == Woken(PhaseOf(es).result)
    ensures PhaseOf(es).Going? ==> es != [] && !es[|es| - 1].Woken?
  {
  }

  /** Which phase an event can follow. */
  lemma OnlyAfter(p: Phase, e: Event)
    requires After(p, e) != Wrong
    ensures e.Woken? ==> p.Sleeping?
    ensures e.Advanced? && e.consumed.Some? ==> p.Awake? && p.result == e.consumed && e.outputs == OutputsOf(e.consumed.value)
    ensures e.Advanced? && e.consumed.None? ==> p.Going?
  {
  }

  /** A wake follows its park at once; the result it brought is advanced on at once or never. */
  lemma WaitsInOrder(es: seq<Event>, i: nat)
    requires PhaseOf(es) != Wrong && i < |es|
    ensures es[i].Woken? ==> i >= 1 && es[i - 1].Parked?
    ensures es[i].Advanced? && es[i].consumed.Some? ==>
              && i >= 2 && es[i - 1] == Woken(es[i].consumed) && es[i - 2].Parked?
              && es[i].outputs == OutputsOf(es[i].consumed.value)
    ensures es[i].Advanced? && es[i].consumed.None? ==> i >= 1 && !es[i - 1].Woken?
  {
    RightAt(es, i);
    OnlyAfter(PhaseOf(es[..i]), es[i]);
    LastEvent(es[..i]);
    if es[i].Advanced? && es[i].consumed.Some? {
      RightAt(es, i - 1);
      OnlyAfter(PhaseOf(es[..i - 1]), es[i - 1]);
      LastEvent(es[..i - 1]);
    }
  }

  /** A `wait_result` is advanced on at most once, with the outputs it carries, from the wait visit
      it was set for; and one park is woken at most once, by an event or by the timeout. */
  lemma {:induction false} WaitsConsumedOnce(wf: Workflow, ls: seq<Label>, r: RunId, i: nat)
    requires r in Run(wf, INIT, ls).rows
    requires r in Run(wf, INIT, ls).log && i < |Run(wf, INIT, ls).log[r]|
    ensures var es := Run(wf, INIT, ls).log[r];
            && (es[i].Woken? ==> i >= 1 && es[i - 1].Parked?)
            && (es[i].Advanced? && es[i].consumed.Some? ==>
                  && i >= 2 && es[i - 1] == Woken(es[i].consumed)
                  && es[i].base.At? && wf.render(r, es[i].base) == Wait
                  && es[i - 2] == Parked(es[i].base, KeyOf(r, es[i].base))
                  && wf.advance(r, es[i].base, OutputsOf(es[i].consumed.value)) == Some(es[i].next))
            && (es[i].Advanced? && es[i].consumed.None? ==> i >= 1 && !es[i - 1].Woken?)
  {
    NoTransitionLost(wf, ls, r);
    RunKeeps(wf, INIT, ls);
    var s := Run(wf, INIT, ls);
    var es := s.log[r];
    assert RunOk(wf, r, s.rows[r], s.initial[r], es, s.nodes);
    WaitsInOrder(es, i);
    if es[i].Advanced? && es[i].consumed.Some? {
      assert BuiltOn(wf, r, s.initial[r], es, i) && BuiltOn(wf, r, s.initial[r], es, i - 1);
      assert BuiltOn(wf, r, s.initial[r], es, i - 2);
    }
  }

  /** While the run is live, a `wait_result` belongs to the wait visit the run is at: the one
      `wait_node_run_id` names, which has its node row. */
  lemma {:induction false} WaitResultFitsTheRun(wf: Workflow, ls: seq<Label>, r: RunId)
    requires r in Run(wf, INIT, ls).rows
    ensures var s := Run(wf, INIT, ls);
            var row := s.rows[r];
            row.waitResult.Some? && !row.finished ==>
              && row.status == Running && row.state.At? && wf.render(r, row.state) == Wait
              && row.waitNode == Some(KeyOf(r, row.state)) && KeyOf(r, row.state) in s.nodes
  {
    RunKeeps(wf, INIT, ls);
    var s := Run(wf, INIT, ls);
    assert RunOk(wf, r, s.rows[r], s.initial[r], s.log[r], s.nodes);
  }

  // ----- what a wait ends with -----

  /** The run was woken last, with this result. */
  predicate WokenLast(s: System, r: RunId, w: Option<WaitResult>) {
    r in s.log && s.log[r] != [] && s.log[r][|s.log[r]| - 1] == Woken(w)
  }

  /** The sweep wakes a wait that only timed out with the result that says so, and one that is stopped or
      past its deadline with none. */
  lemma SweepTells(wf: Workflow, s: System, r: RunId, due: bool)
    requires r in s.rows && r in s.log && s.rows[r].status == Waiting && !s.rows[r].finished
    ensures var row, t := s.rows[r], Step(wf, s, Sweep(r, due));
            if row.stopRequested || row.pastDeadline then WokenLast(t, r, None) && t.rows[r].waitResult == None
            else if row.waitUntil && due then WokenLast(t, r, Some(TimedOut)) && t.rows[r].waitResult == Some(TimedOut)
            else t == s
  {
  }

  /** An event wakes the wait it names, with itself as the result. */
  lemma EventTells(wf: Workflow, s: System, r: RunId, key: NodeKey, w: WaitResult)
    requires r in s.rows && r in s.log
    ensures var t := Step(wf, s, Deliver(r, key, w));
            if s.rows[r].status == Waiting && s.rows[r].waitNode == Some(key)
            then WokenLast(t, r, Some(w)) && t.rows[r].waitResult == Some(w) && t.rows[r].status == Running
            else t == s
  {
  }

  /** What a woken drive advances with: the body of the event, or the outputs of a timeout. */
  predicate IsBody(w: WaitResult, outputs: Json) {
    match w
    case ByEvent(_, body) => outputs == body
    case TimedOut => outputs == "{event: null, timed_out: true}"
  }

  /** In every reachable state, a drive that still owns a run woken with a result and has come to its wait
      node cannot park there; it advances from that very visit with what woke it, or, if the workflow has no
      way to advance on it, ends the run as failed. */
  lemma WokenIsConsumed(wf: Workflow, ls: seq<Label>, d: DriveId, w: WaitResult, outputs: Json)
    requires var s := Run(wf, INIT, ls); Live(s, d) && s.drivers[d].pc.AtWait?
    requires var s := Run(wf, INIT, ls);
             s.rows[s.drivers[d].run].owner == Some(s.drivers[d].replica) && WokenLast(s, s.drivers[d].run, Some(w))
    requires IsBody(w, outputs)
    ensures var s := Run(wf, INIT, ls);
            var r := s.drivers[d].run;
            var base := s.rows[r].state;
            var next := wf.advance(r, base, outputs);
            && base.At? && wf.render(r, base) == Wait && s.rows[r].waitNode == Some(KeyOf(r, base))
            && (forall timeout :: DoPark(s, d, timeout) == s)
            && (next.Some? ==>
                  var t := DoFinishWait(wf, s, d);
                  && t.log[r] == s.log[r] + [Advanced(base, outputs, next.value, Some(w))]
                  && t.rows[r].state == next.value && t.rows[r].waitResult == None && t.rows[r].waitNode == None)
            && (next.None? ==>
                  && DoFinishWait(wf, s, d) == s
                  && forall reason :: DoEnd(wf, s, d, Failed, reason).rows[r].status == Ended(Failed))
  {
    RunKeeps(wf, INIT, ls);
    var s := Run(wf, INIT, ls);
    WokenIsAtWait(wf, s, d, w);
    CannotPark(s, d, w);
    Advances(wf, s, d, w, outputs);
    CannotAdvance(wf, s, d, w, outputs);
  }

  /** A drive at the wait it was woken from, as the row has it. */
  predicate AtWokenWait(wf: Workflow, s: System, d: DriveId, w: WaitResult) {
    && Live(s, d) && s.drivers[d].pc.AtWait? && s.drivers[d].pc.existing
    && var row, snap := s.rows[s.drivers[d].run], s.drivers[d].pc.snap;
    && Fenced(row, s.drivers[d].replica) && row.state.At? && wf.render(s.drivers[d].run, row.state) == Wait
    && snap.state == row.state && snap.waitResult == row.waitResult == Some(w)
    && row.waitNode == Some(KeyOf(s.drivers[d].run, row.state))
  }

  lemma WokenIsAtWait(wf: Workflow, s: System, d: DriveId, w: WaitResult)
    requires Inv(wf, s) && Live(s, d) && s.drivers[d].pc.AtWait?
    requires s.rows[s.drivers[d].run].owner == Some(s.drivers[d].replica) && WokenLast(s, s.drivers[d].run, Some(w))
    ensures AtWokenWait(wf, s, d, w)
  {
    var r := s.drivers[d].run;
    assert RunOk(wf, r, s.rows[r], s.initial[r], s.log[r], s.nodes);
    assert DriverFits(wf, s.drivers[d], s.rows[r], s.nodes);
    assert PhaseOf(s.log[r]).Awake? && PhaseOf(s.log[r]).result == Some(w);
  }

  /** A drive that owns the run and loads it after the wake comes to that wait, unless the run is to stop. */
  lemma WokenComesToWait(wf: Workflow, ls: seq<Label>, d: DriveId, w: WaitResult)
    requires var s := Run(wf, INIT, ls); Live(s, d) && s.drivers[d].pc == Top
    requires var s := Run(wf, INIT, ls);
             s.rows[s.drivers[d].run].owner == Some(s.drivers[d].replica) && WokenLast(s, s.drivers[d].run, Some(w))
    requires var row := Run(wf, INIT, ls).rows[Run(wf, INIT, ls).drivers[d].run];
             !row.stopRequested && !(row.hasDeadline && row.pastDeadline)
    ensures var s := Run(wf, INIT, ls);
            var t := DoBeginWait(wf, DoBeginRunning(DoLoad(s, d), d), d);
            t.rows == s.rows && t.log == s.log && AtWokenWait(wf, t, d, w)
  {
    RunKeeps(wf, INIT, ls);
    var s := Run(wf, INIT, ls);
    var r := s.drivers[d].run;
    var row := s.rows[r];
    assert RunOk(wf, r, row, s.initial[r], s.log[r], s.nodes);
    assert DriverFits(wf, s.drivers[d], row, s.nodes);
    assert PhaseOf(s.log[r]) == Awake(PhaseOf(s.log[r]).key, Some(w));
    LoadsWoken(s, d);
    ComesToWait(wf, Goto(s, d, Read(Snap(row))), d);
  }

  lemma LoadsWoken(s: System, d: DriveId)
    requires Live(s, d) && s.drivers[d].pc == Top
    ensures DoLoad(s, d) == Goto(s, d, Read(Snap(s.rows[s.drivers[d].run])))
  {
  }

  lemma ComesToWait(wf: Workflow, s: System, d: DriveId)
    requires Live(s, d) && s.drivers[d].pc.Read? && s.drivers[d].pc.snap.status == Running && Proceeds(s.drivers[d].pc.snap)
    requires wf.render(s.drivers[d].run, s.drivers[d].pc.snap.state) == Wait
    ensures var dr := s.drivers[d];
            DoBeginWait(wf, DoBeginRunning(s, d), d).drivers[d]
            == dr.(pc := AtWait(dr.pc.snap, KeyOf(dr.run, dr.pc.snap.state) in s.nodes))
    ensures DoBeginWait(wf, DoBeginRunning(s, d), d).rows == s.rows && DoBeginWait(wf, DoBeginRunning(s, d), d).log == s.log
    ensures d in DoBeginWait(wf, DoBeginRunning(s, d), d).drivers
  {
  }

  lemma CannotPark(s: System, d: DriveId, w: WaitResult)
    requires Live(s, d) && s.drivers[d].pc.AtWait? && s.drivers[d].pc.existing && s.drivers[d].pc.snap.waitResult == Some(w)
    ensures forall timeout :: DoPark(s, d, timeout) == s
  {
  }

  lemma Advances(wf: Workflow, s: System, d: DriveId, w: WaitResult, outputs: Json)
    requires AtWokenWait(wf, s, d, w) && IsBody(w, outputs)
    ensures var r := s.drivers[d].run;
            var next := wf.advance(r, s.rows[r].state, outputs);
            next.Some? ==>
              var t := DoFinishWait(wf, s, d);
              && t.log[r] == s.log[r] + [Advanced(s.rows[r].state, outputs, next.value, Some(w))]
              && t.rows[r].state == next.value && t.rows[r].waitResult == None && t.rows[r].waitNode == None
  {
  }

  lemma CannotAdvance(wf: Workflow, s: System, d: DriveId, w: WaitResult, outputs: Json)
    requires AtWokenWait(wf, s, d, w) && IsBody(w, outputs)
    ensures var r := s.drivers[d].run;
            wf.advance(r, s.rows[r].state, outputs).None? ==>
              && DoFinishWait(wf, s, d) == s
              && forall reason :: DoEnd(wf, s, d, Failed, reason).rows[r].status == Ended(Failed)
  {
  }

  // ----- what a loaded run leads to -----

  /** How the run must end before anything else is done, if it must. */
  predicate MustEnd(snap: Snapshot, how: EndStatus) {
    match snap.state
    case Unreadable(_) => how == Failed
    case Over(ended, _) => how == ended
    case At(_, _, _) => (snap.stop && how == Cancelled) || (!snap.stop && snap.expired && how == Failed)
  }

  /** A drive that read a run which is stopped, past its deadline, over or unreadable neither starts it nor works
      on it; it can only end it, in the one way, and does if it still owns it. A run that need not end is ended
      here, if at all, as failed, because its workflow cannot be had. */
  lemma ReadDecides(wf: Workflow, s: System, d: DriveId, how: EndStatus, reason: Json)
    requires Live(s, d) && s.drivers[d].pc.Read? && Fenced(s.rows[s.drivers[d].run], s.drivers[d].replica)
    ensures var snap, r := s.drivers[d].pc.snap, s.drivers[d].run;
            && (MustEnd(snap, how) ==>
                  && DoBeginRunning(s, d) == s && DoSetDeadline(s, d) == s
                  && DoEnd(wf, s, d, how, reason).rows[r].status == Ended(how) && DoEnd(wf, s, d, how, reason).rows[r].finished
                  && (snap.state.At? ==> DoEnd(wf, s, d, how, reason).rows[r].state == Over(how, reason)))
            && (!MustEnd(snap, how) && (how == Failed ==> !Proceeds(snap)) ==> DoEnd(wf, s, d, how, reason) == s)
  {
  }

  /** An end node ends the run as it says, a node that cannot be rendered as failed, and no other node ends it
      before its work is begun. */
  lemma StartedDecides(wf: Workflow, s: System, d: DriveId, how: EndStatus, reason: Json)
    requires Live(s, d) && s.drivers[d].pc.Started? && Fenced(s.rows[s.drivers[d].run], s.drivers[d].replica)
    ensures var r := s.drivers[d].run;
            var t := DoEnd(wf, s, d, how, reason);
            match wf.render(r, s.drivers[d].pc.snap.state)
            case EndNode(h) => if how == h then t.rows[r].status == Ended(h) && t.rows[r].finished else t == s
            case Broken => if how == Failed then t.rows[r].status == Ended(Failed) && t.rows[r].finished else t == s
            case _ => t == s
  {
  }

  /** Only a run at a node, neither stopped nor past its deadline, goes on. */
  lemma ProceedsIff(snap: Snapshot)
    ensures Proceeds(snap) <==> !MustEnd(snap, Done) && !MustEnd(snap, Failed) && !MustEnd(snap, Cancelled)
  {
    assert snap.state.Over? ==> MustEnd(snap, snap.state.how);
  }

  // ----- what one step can do to a run -----

  predicate SameOrigin(a: Row, b: Row) {
    a.project == b.project && a.workflow == b.workflow && a.maxRuns == b.maxRuns && a.test == b.test
  }

  /** A log grows by at most one event (a `Start` only where `starts`); without one, status and
      state stay. New rows are pending. */
  ghost predicate Grows(s: System, s': System, starts: bool) {
    && (forall r | r in s.rows && r in s.log ::
          && r in s'.rows && r in s'.log && SameOrigin(s.rows[r], s'.rows[r])
          && (s'.log[r] == s.log[r] || (s'.log[r] != [] && s'.log[r][..|s'.log[r]| - 1] == s.log[r]))
          && (s'.log[r] == s.log[r] ==>
                s'.rows[r].status == s.rows[r].status && s'.rows[r].state == s.rows[r].state)
          && (!starts && s'.log[r] != s.log[r] ==> !s'.log[r][|s'.log[r]| - 1].Start?))
    && (forall r | r in s'.rows && r !in s.rows :: s'.rows[r].status == Pending)
  }

  lemma WriteGrows(s: System, d: DriveId, row: Option<Row>, e: Event, then': Option<Pc>)
    requires Live(s, d) && !e.Start?
    requires row.Some? ==> SameOrigin(s.rows[s.drivers[d].run], row.value)
    ensures Grows(s, Write(s, d, row, e, then'), false)
  {
    if row.Some? {
      var r := s.drivers[d].run;
      assert (s.log[r] + [e])[..|s.log[r]|] == s.log[r];
    }
  }

  lemma FinishWaitGrows(wf: Workflow, s: System, d: DriveId)
    ensures Grows(s, DoFinishWait(wf, s, d), false)
  {
    if Live(s, d) && s.drivers[d].pc.AtWait? && s.drivers[d].pc.snap.waitResult.Some? {
      var dr := s.drivers[d];
      var snap := dr.pc.snap;
      var outputs := OutputsOf(snap.waitResult.value);
      var next := wf.advance(dr.run, snap.state, outputs);
      if next.Some? {
        WriteGrows(s, d, FinishLocalRow(s.rows[dr.run], dr.replica, next.value),
                   Advanced(snap.state, outputs, next.value, snap.waitResult),
                   if next.value.Over? then None else Some(Top));
      }
    }
  }

  lemma FinishWorkGrows(wf: Workflow, s: System, d: DriveId, outputs: Json)
    ensures Grows(s, DoFinishWork(wf, s, d, outputs), false)
  {
    if Live(s, d) && s.drivers[d].pc.Working? && wf.render(s.drivers[d].run, s.drivers[d].pc.snap.state).Work? {
      var dr := s.drivers[d];
      var snap := dr.pc.snap;
      var next := wf.advance(dr.run, snap.state, outputs);
      if next.Some? {
        WriteGrows(s, d,
                   if wf.render(dr.run, snap.state).local then FinishLocalRow(s.rows[dr.run], dr.replica, next.value)
                   else FinishNodeRow(s.rows[dr.run], dr.replica, next.value),
                   Advanced(snap.state, outputs, next.value, None),
                   if next.value.Over? then None else Some(Top));
      }
    }
  }

  lemma ParkGrows(s: System, d: DriveId, timeout: bool)
    ensures Grows(s, DoPark(s, d, timeout), false)
  {
    if Live(s, d) && s.drivers[d].pc.AtWait? && s.drivers[d].pc.snap.state.At? {
      var dr := s.drivers[d];
      var key := KeyOf(dr.run, dr.pc.snap.state);
      var row := ParkRow(s.rows[dr.run], dr.replica, key, timeout);
      var s1 := if row.Some? then s.(nodes := s.nodes + {key}) else s;
      WriteGrows(s1, d, row, Parked(dr.pc.snap.state, key), None);
    }
  }

  lemma EndGrows(wf: Workflow, s: System, d: DriveId, how: EndStatus, reason: Json)
    ensures Grows(s, DoEnd(wf, s, d, how, reason), false)
  {
    if Live(s, d) && MayEnd(wf, s.drivers[d].run, s.drivers[d].pc, how) {
      var dr := s.drivers[d];
      var base := dr.pc.snap.state;
      var next := base.EndedAs(how, reason);
      WriteGrows(s, d, EndRow(s.rows[dr.run], dr.replica, how, if base.Unreadable? then None else Some(next)),
                 Finished(base, how, next), None);
    }
  }

  lemma BeginRunningGrows(s: System, d: DriveId)
    ensures Grows(s, DoBeginRunning(s, d), true)
  {
    if Live(s, d) && s.drivers[d].pc.Read? && Proceeds(s.drivers[d].pc.snap) && s.drivers[d].pc.snap.status == Pending {
      var r := s.drivers[d].run;
      if |LiveOthers(s.rows, r)| >= s.rows[r].maxRuns {
        ReleaseGrows(s, d);
      } else if s.rows[r].owner == Some(s.drivers[d].replica) {
        StartedGrows(s, DoBeginRunning(s, d), r);
      }
    }
  }

  lemma ReleaseGrows(s: System, d: DriveId)
    ensures Grows(s, DoRelease(s, d), true)
  {
  }

  lemma StartedGrows(s: System, t: System, r: RunId)
    requires r in s.rows && r in s.log && r in t.rows && SameOrigin(s.rows[r], t.rows[r])
    requires t.rows == s.rows[r := t.rows[r]] && t.log == s.log[r := s.log[r] + [Start]]
    ensures Grows(s, t, true)
  {
    assert (s.log[r] + [Start])[..|s.log[r]|] == s.log[r];
  }

  lemma WakeGrows(s: System, l: Label)
    requires l.Sweep? || l.Deliver?
    ensures Grows(s, if l.Sweep? then DoSweep(s, l.r, l.due) else DoDeliver(s, l.r, l.key, l.w), false)
  {
    if l.r in s.log {
      assert forall e: Event :: (s.log[l.r] + [e])[..|s.log[l.r]|] == s.log[l.r];
    }
  }

  lemma MoveGrows(wf: Workflow, s: System, l: Label)
    requires Moves(l)
    ensures Step(wf, s, l).rows == s.rows && Step(wf, s, l).log == s.log
  {
  }

  lemma NewGrows(wf: Workflow, s: System, l: Label)
    requires l.Claim? || l.Create?
    ensures Grows(s, Step(wf, s, l), false)
  {
  }

  lemma FlagGrows(wf: Workflow, s: System, l: Label)
    requires l.RequestStop? || l.PassDeadline? || l.ExpireLease?
    ensures Grows(s, Step(wf, s, l), false)
  {
  }

  lemma LeaseGrows(wf: Workflow, s: System, l: Label)
    requires l.Renew? || l.Release? || l.SetDeadline?
    ensures Grows(s, Step(wf, s, l), false)
  {
  }

  lemma StepGrows(wf: Workflow, s: System, l: Label)
    ensures Grows(s, Step(wf, s, l), l.BeginRunning?)
  {
    match l
    case FinishWait(d) => FinishWaitGrows(wf, s, d);
    case FinishWork(d, outputs) => FinishWorkGrows(wf, s, d, outputs);
    case Park(d, timeout) => ParkGrows(s, d, timeout);
    case End(d, how, reason) => EndGrows(wf, s, d, how, reason);
    case BeginRunning(d) => BeginRunningGrows(s, d);
    case Sweep(_, _) => WakeGrows(s, l);
    case Deliver(_, _, _) => WakeGrows(s, l);
    case RequestStop(_) => FlagGrows(wf, s, l);
    case PassDeadline(_) => FlagGrows(wf, s, l);
    case ExpireLease(_) => FlagGrows(wf, s, l);
    case Renew(_) => LeaseGrows(wf, s, l);
    case Release(_) => LeaseGrows(wf, s, l);
    case SetDeadline(_) => LeaseGrows(wf, s, l);
    case Claim(_, _) => NewGrows(wf, s, l);
    case Create(_, _) => NewGrows(wf, s, l);
    case _ => MoveGrows(wf, s, l);
  }

  // ----- ended runs -----

  lemma {:induction false} FinishedIffEnded(wf: Workflow, ls: seq<Label>, r: RunId)
    requires r in Run(wf, INIT, ls).rows
    ensures Run(wf, INIT, ls).rows[r].finished <==> Run(wf, INIT, ls).rows[r].status.Ended?
  {
    RunKeeps(wf, INIT, ls);
    var s := Run(wf, INIT, ls);
    assert RunOk(wf, r, s.rows[r], s.initial[r], s.log[r], s.nodes);
  }

  ghost predicate SameEnd(s: System, s': System, r: RunId) {
    && r in s.rows && r in s'.rows && r in s.log && r in s'.log
    && s'.rows[r].finished && s'.rows[r].status == s.rows[r].status
    && s'.rows[r].state == s.rows[r].state && s'.log[r] == s.log[r]
  }

  lemma StepLeavesEnded(wf: Workflow, s: System, l: Label, r: RunId)
    requires Inv(wf, s) && r in s.rows && s.rows[r].finished
    ensures SameEnd(s, Step(wf, s, l), r)
  {
    var s' := Step(wf, s, l);
    StepGrows(wf, s, l);
    StepKeeps(wf, s, l);
    assert RunOk(wf, r, s.rows[r], s.initial[r], s.log[r], s.nodes);
    assert r in s'.rows;
    assert RunOk(wf, r, s'.rows[r], s'.initial[r], s'.log[r], s'.nodes);
  }

  /** Once a run ended, no step of any replica changes its status, its state or its log. */
  lemma {:induction false} EndedIsAbsorbing(wf: Workflow, ls: seq<Label>, more: seq<Label>, r: RunId)
    requires r in Run(wf, INIT, ls).rows && Run(wf, INIT, ls).rows[r].finished
    ensures SameEnd(Run(wf, INIT, ls), Run(wf, Run(wf, INIT, ls), more), r)
  {
    var s := Run(wf, INIT, ls);
    RunKeeps(wf, INIT, ls);
    if more == [] {
      assert r in s.log;
    } else {
      var front := more[..|more| - 1];
      EndedIsAbsorbing(wf, ls, front, r);
      RunKeeps(wf, s, front);
      StepLeavesEnded(wf, Run(wf, s, front), more[|more| - 1], r);
    }
  }

  // ----- max_runs -----

  predicate NeverParked(es: seq<Event>) {
    forall i | 0 <= i < |es| :: !es[i].Parked?
  }

  /** The running, non-test runs of a project and workflow that never parked. */
  ghost function RunningUnparked(s: System, project: string, workflow: string): set<RunId> {
    set r | r in s.rows && r in s.log && Counted(s.rows[r], project, workflow) && NeverParked(s.log[r])
  }

  ghost predicate Capped(s: System, project: string, workflow: string, m: nat) {
    forall r | r in s.rows && s.rows[r].project == project && s.rows[r].workflow == workflow :: s.rows[r].maxRuns <= m
  }

  /** Only `start_allowed` adds to the set, one run at a time. */
  lemma OnlyStartAdds(wf: Workflow, s: System, l: Label, project: string, workflow: string)
    requires Inv(wf, s) && !l.BeginRunning?
    ensures RunningUnparked(Step(wf, s, l), project, workflow) <= RunningUnparked(s, project, workflow)
  {
    var s' := Step(wf, s, l);
    forall r | r in RunningUnparked(s', project, workflow)
      ensures r in RunningUnparked(s, project, workflow)
    {
      RunningWasRunning(wf, s, l, r);
    }
  }

  lemma RunningWasRunning(wf: Workflow, s: System, l: Label, r: RunId)
    requires Inv(wf, s) && !l.BeginRunning?
    requires var s' := Step(wf, s, l); r in s'.rows && r in s'.log && s'.rows[r].status == Running && NeverParked(s'.log[r])
    ensures r in s.rows && r in s.log && s.rows[r].status == Running && NeverParked(s.log[r])
    ensures SameOrigin(s.rows[r], Step(wf, s, l).rows[r]) && !s.rows[r].finished
  {
    var s' := Step(wf, s, l);
    StepGrows(wf, s, l);
    StepKeeps(wf, s, l);
    assert RunOk(wf, r, s'.rows[r], s'.initial[r], s'.log[r], s'.nodes);
    assert r in s.rows && r in s.log;
    assert RunOk(wf, r, s.rows[r], s.initial[r], s.log[r], s.nodes);
    WasGoing(wf, r, s.rows[r], s.initial[r], s.log[r], s.nodes, s'.rows[r], s'.initial[r], s'.log[r], s'.nodes);
  }

  /** A run that is running and never parked was running one event ago, unless that event started it. */
  lemma WasGoing(wf: Workflow, r: RunId, row: Row, init: RunState, es: seq<Event>, nodes: set<NodeKey>,
                 row': Row, init': RunState, es': seq<Event>, nodes': set<NodeKey>)
    requires RunOk(wf, r, row, init, es, nodes) && RunOk(wf, r, row', init', es', nodes')
    requires if es' == es then row'.status == row.status else es' != [] && es'[..|es'| - 1] == es && !es'[|es'| - 1].Start?
    requires row'.status == Running && NeverParked(es')
    ensures row.status == Running && !row.finished && NeverParked(es)
  {
    forall i | 0 <= i < |es| ensures !es[i].Parked? {
      assert es'[i] == es[i];
    }
    UnparkedPhase(es);
    UnparkedPhase(es');
  }

  /** A run that never parked is not asleep. */
  lemma {:induction false} UnparkedPhase(es: seq<Event>)
    requires NeverParked(es)
    ensures !PhaseOf(es).Sleeping? && !PhaseOf(es).Awake?
  {
    if es != [] {
      UnparkedPhase(es[..|es| - 1]);
    }
  }

  /** `start_allowed` changes the row and the log of the drive's own run only; without a `Start`
      event nothing that counts changes. */
  lemma StartTouchesOne(s: System, d: DriveId, x: RunId)
    requires x in s.rows && x in s.log
    ensures var s' := DoBeginRunning(s, d);
            && s'.rows.Keys == s.rows.Keys && x in s'.log
            && (!(Live(s, d) && s.drivers[d].run == x && s'.log != s.log) ==>
                  && s'.log[x] == s.log[x] && SameOrigin(s'.rows[x], s.rows[x])
                  && s'.rows[x].status == s.rows[x].status && s'.rows[x].finished == s.rows[x].finished)
  {
    if Live(s, d) {
      assert |s.log[s.drivers[d].run] + [Start]| != |s.log[s.drivers[d].run]|;
    }
  }

  lemma StartAddsOne(wf: Workflow, s: System, d: DriveId, project: string, workflow: string, m: nat)
    requires Inv(wf, s) && Capped(s, project, workflow, m)
    requires |RunningUnparked(s, project, workflow)| <= m
    ensures |RunningUnparked(DoBeginRunning(s, d), project, workflow)| <= m
  {
    var s' := DoBeginRunning(s, d);
    var before, after := RunningUnparked(s, project, workflow), RunningUnparked(s', project, workflow);
    forall x | x in after && !(Live(s, d) && s.drivers[d].run == x && s'.log != s.log)
      ensures x in before
    {
      assert x in s'.rows;
      StartTouchesOne(s, d, x);
    }
    if Live(s, d) && s.drivers[d].run in after && s'.log != s.log {
      var r := s.drivers[d].run;
      StartIsCapped(s, d, project, workflow, m);
      forall x | x in after && x != r
        ensures x in LiveOthers(s.rows, r)
      {
        assert x in before;
      }
      SmallerSet(after - {r}, LiveOthers(s.rows, r));
    } else {
      SmallerSet(after, before);
    }
  }

  /** The check of `start_allowed`, for a run that did start. */
  lemma StartIsCapped(s: System, d: DriveId, project: string, workflow: string, m: nat)
    requires Capped(s, project, workflow, m)
    requires Live(s, d) && DoBeginRunning(s, d).log != s.log
    requires s.drivers[d].run in DoBeginRunning(s, d).rows
    requires Counted(DoBeginRunning(s, d).rows[s.drivers[d].run], project, workflow)
    ensures var row := s.rows[s.drivers[d].run];
            row.project == project && row.workflow == workflow && |LiveOthers(s.rows, s.drivers[d].run)| < row.maxRuns <= m
  {
    var dr := s.drivers[d];
    var row := s.rows[dr.run];
    assert dr.pc.Read? && Proceeds(dr.pc.snap) && dr.pc.snap.status == Pending;
    assert |LiveOthers(s.rows, dr.run)| < row.maxRuns;
    assert SameOrigin(DoBeginRunning(s, d).rows[dr.run], row);
  }

  lemma WasCapped(wf: Workflow, s: System, l: Label, project: string, workflow: string, m: nat)
    requires Inv(wf, s) && Capped(Step(wf, s, l), project, workflow, m)
    ensures Capped(s, project, workflow, m)
  {
    StepGrows(wf, s, l);
    forall r | r in s.rows && s.rows[r].project == project && s.rows[r].workflow == workflow
      ensures s.rows[r].maxRuns <= m
    {
      assert r in s.log && SameOrigin(s.rows[r], Step(wf, s, l).rows[r]);
    }
  }

  /** Over all interleavings the running, non-test runs of one project and workflow that never
      parked are at most the largest pinned `max_runs`. */
  lemma {:induction false} MaxRunsHolds(wf: Workflow, ls: seq<Label>, project: string, workflow: string, m: nat)
    requires Capped(Run(wf, INIT, ls), project, workflow, m)
    ensures |RunningUnparked(Run(wf, INIT, ls), project, workflow)| <= m
  {
    if ls == [] {
      assert RunningUnparked(INIT, project, workflow) == {};
    } else {
      var front, l := ls[..|ls| - 1], ls[|ls| - 1];
      var s := Run(wf, INIT, front);
      RunKeeps(wf, INIT, front);
      WasCapped(wf, s, l, project, workflow, m);
      MaxRunsHolds(wf, front, project, workflow, m);
      if l.BeginRunning? {
        StartAddsOne(wf, s, l.d, project, workflow, m);
      } else {
        OnlyStartAdds(wf, s, l, project, workflow);
        SmallerSet(RunningUnparked(Step(wf, s, l), project, workflow), RunningUnparked(s, project, workflow));
      }
    }
  }

  // ----- the hypothesis on claims -----

  /** The system in which a process may also claim a run while an earlier drive of it is in flight there. */
  ghost function StepUnder(anyway: bool, wf: Workflow, s: System, l: Label): System {
    if anyway && l.Claim? then ClaimAnyway(s, l.me, l.r) else Step(wf, s, l)
  }

  ghost function RunUnder(anyway: bool, wf: Workflow, s: System, ls: seq<Label>): System
    decreases |ls|
  {
    if ls == [] then s else StepUnder(anyway, wf, RunUnder(anyway, wf, s, ls[..|ls| - 1]), ls[|ls| - 1])
  }

  /** Every claim was made with no drive of the run in flight in the same process. */
  ghost predicate ClaimsWaited(wf: Workflow, s: System, ls: seq<Label>) {
    forall n | 0 <= n < |ls| && ls[n].Claim? :: NoDriveInFlight(RunUnder(true, wf, s, ls[..n]), ls[n].me, ls[n].r)
  }

  lemma {:induction false} GuardedRuns(wf: Workflow, s: System, ls: seq<Label>)
    ensures RunUnder(false, wf, s, ls) == Run(wf, s, ls)
    ensures ClaimsWaited(wf, s, ls) ==> RunUnder(true, wf, s, ls) == Run(wf, s, ls)
    decreases |ls|
  {
    if ls != [] {
      var front := ls[..|ls| - 1];
      GuardedRuns(wf, s, front);
      assert forall n | 0 <= n <= |front| :: front[..n] == ls[..n];
    }
  }

  // ----- when exactly an ended run changes -----

  /** What `start_allowed` asks before it flips the row: the snapshot it was handed says pending, the cap
      allows it, and the replica's name is on the row. It does not ask whether the run has finished. */
  ghost predicate Flips(s: System, d: DriveId) {
    && Live(s, d) && s.drivers[d].pc.Read? && Proceeds(s.drivers[d].pc.snap) && s.drivers[d].pc.snap.status == Pending
    && s.rows[s.drivers[d].run].owner == Some(s.drivers[d].replica)
    && |LiveOthers(s.rows, s.drivers[d].run)| < s.rows[s.drivers[d].run].maxRuns
  }

  ghost predicate FlipsRun(s: System, l: Label, r: RunId) {
    l.BeginRunning? && Flips(s, l.d) && s.drivers[l.d].run == r
  }

  predicate EndedRun(s: System, r: RunId) {
    r in s.rows && r in s.log && s.rows[r].finished && s.rows[r].status.Ended?
  }

  predicate Finishes(l: Label) {
    l.FinishWait? || l.FinishWork?
  }

  predicate Stops(l: Label) {
    l.Park? || l.End?
  }

  predicate SetsFlag(l: Label) {
    l.RequestStop? || l.PassDeadline? || l.ExpireLease? || l.Renew? || l.Release? || l.SetDeadline?
  }

  predicate Moves(l: Label) {
    l.Abandon? || l.Load? || l.BeginWait? || l.BeginWork? || l.Reload?
  }

  lemma FinishLeavesEnded(wf: Workflow, s: System, l: Label, r: RunId)
    requires EndedRun(s, r) && Finishes(l)
    ensures SameEnd(s, Step(wf, s, l), r)
  {
  }

  lemma StopLeavesEnded(wf: Workflow, s: System, l: Label, r: RunId)
    requires EndedRun(s, r) && Stops(l)
    ensures SameEnd(s, Step(wf, s, l), r)
  {
  }

  lemma FlagLeavesEnded(wf: Workflow, s: System, l: Label, r: RunId)
    requires EndedRun(s, r) && SetsFlag(l)
    ensures SameEnd(s, Step(wf, s, l), r)
  {
  }

  lemma OtherLeavesEnded(wf: Workflow, s: System, l: Label, r: RunId)
    requires EndedRun(s, r) && (l.Create? || l.Sweep? || l.Deliver? || l.Claim?)
    ensures SameEnd(s, StepUnder(true, wf, s, l), r) && SameEnd(s, Step(wf, s, l), r)
  {
  }

  /** In any state at all, one step changes an ended run exactly if it is the flip of a drive of that run
      whose replica is on the row and whose snapshot says pending. */
  lemma {:induction false} EndedChangesIff(anyway: bool, wf: Workflow, s: System, l: Label, r: RunId)
    requires EndedRun(s, r)
    ensures SameEnd(s, StepUnder(anyway, wf, s, l), r) <==> !FlipsRun(s, l, r)
  {
    if l.BeginRunning? {
      FlipIff(s, l.d, r);
    } else if Finishes(l) {
      FinishLeavesEnded(wf, s, l, r);
    } else if Stops(l) {
      StopLeavesEnded(wf, s, l, r);
    } else if SetsFlag(l) {
      FlagLeavesEnded(wf, s, l, r);
    } else if Moves(l) {
      MoveGrows(wf, s, l);
    } else {
      OtherLeavesEnded(wf, s, l, r);
    }
  }

  lemma FlipIff(s: System, d: DriveId, r: RunId)
    requires EndedRun(s, r)
    ensures SameEnd(s, DoBeginRunning(s, d), r) <==> !(Flips(s, d) && s.drivers[d].run == r)
  {
  }

  lemma {:induction false} SameEndAgain(a: System, b: System, c: System, r: RunId)
    requires SameEnd(a, b, r)
    ensures SameEnd(a, c, r) <==> SameEnd(b, c, r)
  {
  }

  ghost predicate SameThroughout(anyway: bool, wf: Workflow, s: System, ls: seq<Label>, r: RunId) {
    forall n | 0 <= n <= |ls| :: SameAfter(anyway, wf, s, ls[..n], r)
  }

  ghost predicate SameAfter(anyway: bool, wf: Workflow, s: System, ls: seq<Label>, r: RunId) {
    SameEnd(s, RunUnder(anyway, wf, s, ls), r)
  }

  ghost predicate NeverFlips(anyway: bool, wf: Workflow, s: System, ls: seq<Label>, r: RunId) {
    forall n | 0 <= n < |ls| :: !FlipsRun(RunUnder(anyway, wf, s, ls[..n]), ls[n], r)
  }

  lemma SameOneMore(anyway: bool, wf: Workflow, s: System, ls: seq<Label>, r: RunId)
    requires ls != []
    ensures SameThroughout(anyway, wf, s, ls, r)
            <==> SameThroughout(anyway, wf, s, ls[..|ls| - 1], r) && SameAfter(anyway, wf, s, ls, r)
  {
    var front := ls[..|ls| - 1];
    assert ls[..|ls|] == ls;
    assert forall n | 0 <= n <= |front| :: front[..n] == ls[..n];
  }

  lemma FlipsOneMore(anyway: bool, wf: Workflow, s: System, ls: seq<Label>, r: RunId)
    requires ls != []
    ensures var front := ls[..|ls| - 1];
            NeverFlips(anyway, wf, s, ls, r)
            <==> NeverFlips(anyway, wf, s, front, r) && !FlipsRun(RunUnder(anyway, wf, s, front), ls[|ls| - 1], r)
  {
    var front := ls[..|ls| - 1];
    assert forall n | 0 <= n <= |front| :: front[..n] == ls[..n];
  }

  /** Over a whole run: an ended run stays as it is at every moment exactly if no step of the run is such a
      flip. */
  lemma {:induction false} StaysEndedIff(anyway: bool, wf: Workflow, s: System, ls: seq<Label>, r: RunId)
    requires EndedRun(s, r)
    ensures SameThroughout(anyway, wf, s, ls, r) <==> NeverFlips(anyway, wf, s, ls, r)
    decreases |ls|
  {
    if ls == [] {
      assert forall n | 0 <= n <= |ls| :: ls[..n] == [];
    } else {
      var front, l := ls[..|ls| - 1], ls[|ls| - 1];
      StaysEndedIff(anyway, wf, s, front, r);
      SameOneMore(anyway, wf, s, ls, r);
      FlipsOneMore(anyway, wf, s, ls, r);
      var t := RunUnder(anyway, wf, s, front);
      if SameThroughout(anyway, wf, s, front, r) {
        assert front[..|front|] == front;
        EndedChangesIff(anyway, wf, t, l, r);
        SameEndAgain(s, t, StepUnder(anyway, wf, t, l), r);
      }
    }
  }

  const PENDING :=
    Row("p", "w", false, 1, 0, Pending, At("n", map[], ""), false, false, false, false, None, false, None, false, None)
  const CLAIMED := PENDING.(owner := Some(7))

  /** Replica 7 claimed run 0, read it while pending, and stalled until its lease was over. */
  const STALLED := System(map[0 := CLAIMED], {}, map[0 := Driver(7, 0, Read(Snap(CLAIMED)))], 1,
                          map[0 := PENDING.state], map[0 := []])

  lemma StalledIsReached(wf: Workflow)
    ensures Run(wf, INIT, [Create(0, PENDING), Claim(7, 0), ExpireLease(0), Load(0)]) == STALLED
  {
    var ls := [Create(0, PENDING), Claim(7, 0), ExpireLease(0), Load(0)];
    var s1 := System(map[0 := PENDING], {}, map[], 0, map[0 := PENDING.state], map[0 := []]);
    assert Step(wf, INIT, ls[0]) == s1;
    var s2 := s1.(rows := map[0 := CLAIMED.(leased := true)], drivers := map[0 := Driver(7, 0, Top)], nextDrive := 1);
    assert Step(wf, s1, ls[1]) == s2;
    var s3 := s2.(rows := map[0 := CLAIMED]);
    assert Step(wf, s2, ls[2]) == s3;
    assert Step(wf, s3, ls[3]) == STALLED;
    assert ls[..3][..2][..1] == ls[..1] && ls[..3][..2] == ls[..2] && ls[..2][..1] == ls[..1] && ls[..1][..0] == [];
    assert Run(wf, INIT, ls[..1]) == s1;
    assert Run(wf, INIT, ls[..2]) == s2;
    assert Run(wf, INIT, ls[..3]) == s3;
  }

  const STOPPED := CLAIMED.(leased := true, stopRequested := true)
  const CANCELLED := STOPPED.(status := Ended(Cancelled), finished := true, leased := false, state := Over(Cancelled, "stopped"))

  lemma RunMore(wf: Workflow, s: System, ls: seq<Label>, l: Label, t: System, u: System)
    requires Run(wf, s, ls) == t && Step(wf, t, l) == u
    ensures Run(wf, s, ls + [l]) == u
  {
    assert (ls + [l])[..|ls|] == ls;
  }

  const OLDER := Driver(7, 0, Read(Snap(CLAIMED)))

  /** The process claimed the run again, it is stopped, and the second drive is at `pc`. */
  function SecondAt(row: Row, pc: Pc): System {
    System(map[0 := row], {}, map[0 := OLDER, 1 := Driver(7, 0, pc)], 2, map[0 := PENDING.state], map[0 := []])
  }

  lemma SecondClaims()
    ensures ClaimAnyway(STALLED, 7, 0) == SecondAt(CLAIMED.(leased := true), Top)
  {
  }

  lemma SecondIsStopped(wf: Workflow)
    ensures Step(wf, SecondAt(CLAIMED.(leased := true), Top), RequestStop(0)) == SecondAt(STOPPED, Top)
  {
  }

  lemma SecondLoads(wf: Workflow)
    ensures Step(wf, SecondAt(STOPPED, Top), Load(1)) == SecondAt(STOPPED, Read(Snap(STOPPED)))
  {
  }

  lemma SecondCancels(wf: Workflow)
    ensures var s := DoEnd(wf, SecondAt(STOPPED, Read(Snap(STOPPED))), 1, Cancelled, "stopped");
            s.rows == map[0 := CANCELLED] && s.drivers == map[0 := OLDER] && 0 in s.log
  {
  }

  lemma EndStep(wf: Workflow, s: System, d: DriveId, how: EndStatus, reason: Json)
    ensures Step(wf, s, End(d, how, reason)) == DoEnd(wf, s, d, how, reason)
  {
  }

  /** The second drive of the same process, and the run it cancels. */
  lemma SecondDriveEndsTheRun(wf: Workflow)
    ensures Claimable(STALLED.rows[0])
    ensures var s := Run(wf, ClaimAnyway(STALLED, 7, 0), [RequestStop(0), Load(1), End(1, Cancelled, "stopped")]);
            s.rows == map[0 := CANCELLED] && s.drivers == STALLED.drivers && 0 in s.log
  {
    var s0, s1, s2 := ClaimAnyway(STALLED, 7, 0), SecondAt(STOPPED, Top), SecondAt(STOPPED, Read(Snap(STOPPED)));
    SecondClaims();
    SecondIsStopped(wf);
    RunMore(wf, s0, [], RequestStop(0), s0, s1);
    SecondLoads(wf);
    RunMore(wf, s0, [] + [RequestStop(0)], Load(1), s1, s2);
    SecondCancels(wf);
    EndStep(wf, s2, 1, Cancelled, "stopped");
    RunMore(wf, s0, [] + [RequestStop(0)] + [Load(1)], End(1, Cancelled, "stopped"), s2, DoEnd(wf, s2, 1, Cancelled, "stopped"));
    assert [RequestStop(0), Load(1), End(1, Cancelled, "stopped")] == [] + [RequestStop(0)] + [Load(1)] + [End(1, Cancelled, "stopped")];
  }

  /** Two drives of one run in one process: the older one, stalled before `start_allowed`, flips a
      run that has ended back to `running`, because that UPDATE tests the owner only. */
  lemma ReclaimRevivesAnEndedRun(wf: Workflow)
    ensures var s := Run(wf, ClaimAnyway(STALLED, 7, 0), [RequestStop(0), Load(1), End(1, Cancelled, "stopped"), BeginRunning(0)]);
            0 in s.rows && s.rows[0].finished && s.rows[0].status == Running
  {
    SecondDriveEndsTheRun(wf);
    var ls := [RequestStop(0), Load(1), End(1, Cancelled, "stopped"), BeginRunning(0)];
    assert ls[..3] == [RequestStop(0), Load(1), End(1, Cancelled, "stopped")];
    var t3 := Run(wf, ClaimAnyway(STALLED, 7, 0), ls[..3]);
    assert LiveOthers(t3.rows, 0) == {};
    assert Step(wf, t3, ls[3]).rows == map[0 := CANCELLED.(status := Running)];
  }

  /** What `EndedIsAbsorbing` promises, of the system with or without the hypothesis. */
  ghost predicate Absorbing(anyway: bool, wf: Workflow) {
    forall ls, more, r | EndsIn(anyway, wf, ls, r) ::
      SameEnd(RunUnder(anyway, wf, INIT, ls), RunUnder(anyway, wf, RunUnder(anyway, wf, INIT, ls), more), r)
  }

  ghost predicate EndsIn(anyway: bool, wf: Workflow, ls: seq<Label>, r: RunId) {
    r in RunUnder(anyway, wf, INIT, ls).rows && RunUnder(anyway, wf, INIT, ls).rows[r].finished
  }

  lemma {:induction false} RunUnderAppend(wf: Workflow, s: System, a: seq<Label>, b: seq<Label>)
    ensures RunUnder(true, wf, s, a + b) == RunUnder(true, wf, RunUnder(true, wf, s, a), b)
    decreases |b|
  {
    if b == [] {
      assert a + b == a;
    } else {
      RunUnderAppend(wf, s, a, b[..|b| - 1]);
      assert (a + b)[..|a + b| - 1] == a + b[..|b| - 1];
    }
  }

  const STALLS: seq<Label> := [Create(0, PENDING), Claim(7, 0), ExpireLease(0), Load(0)]
  const CANCELS: seq<Label> := [RequestStop(0), Load(1), End(1, Cancelled, "stopped")]

  lemma {:induction false} NoClaims(wf: Workflow, s: System, ls: seq<Label>)
    requires forall n | 0 <= n < |ls| :: !ls[n].Claim?
    ensures RunUnder(true, wf, s, ls) == Run(wf, s, ls)
  {
    GuardedRuns(wf, s, ls);
  }

  lemma StallsUnder(wf: Workflow)
    ensures RunUnder(true, wf, INIT, STALLS) == STALLED
  {
    StalledIsReached(wf);
    assert RunUnder(true, wf, INIT, STALLS[..1]).drivers == map[] by { assert STALLS[..1][..0] == []; }
    GuardedRuns(wf, INIT, STALLS);
  }

  lemma CancelledUnder(wf: Workflow)
    ensures var s := RunUnder(true, wf, INIT, STALLS + ([Claim(7, 0)] + CANCELS));
            s.rows == map[0 := CANCELLED] && s.drivers == STALLED.drivers && 0 in s.log
  {
    RunUnderAppend(wf, INIT, STALLS, [Claim(7, 0)] + CANCELS);
    StallsUnder(wf);
    RunUnderAppend(wf, STALLED, [Claim(7, 0)], CANCELS);
    var one := [Claim(7, 0)];
    assert one[..0] == [] && RunUnder(true, wf, STALLED, one) == ClaimAnyway(STALLED, 7, 0);
    NoClaims(wf, ClaimAnyway(STALLED, 7, 0), CANCELS);
    SecondDriveEndsTheRun(wf);
  }

  /** Ended is absorbing over all runs exactly if no process claims a run while an earlier drive of it is in
      flight there. */
  lemma ClaimsMustWait(anyway: bool, wf: Workflow)
    ensures Absorbing(anyway, wf) <==> !anyway
  {
    if anyway {
      var ls, more := STALLS + ([Claim(7, 0)] + CANCELS), [BeginRunning(0)];
      CancelledUnder(wf);
      var s := RunUnder(true, wf, INIT, ls);
      assert EndsIn(true, wf, ls, 0) && EndedRun(s, 0);
      assert LiveOthers(s.rows, 0) == {};
      assert FlipsRun(s, BeginRunning(0), 0);
      EndedChangesIff(true, wf, s, BeginRunning(0), 0);
      assert more[..0] == [] && RunUnder(true, wf, s, more) == StepUnder(true, wf, s, BeginRunning(0));
      assert !SameEnd(s, RunUnder(true, wf, s, more), 0);
    } else {
      forall ls, more, r | EndsIn(false, wf, ls, r)
        ensures SameEnd(RunUnder(false, wf, INIT, ls), RunUnder(false, wf, RunUnder(false, wf, INIT, ls), more), r)
      {
        GuardedRuns(wf, INIT, ls);
        GuardedRuns(wf, Run(wf, INIT, ls), more);
        EndedIsAbsorbing(wf, ls, more, r);
      }
    }
  }

  /** Run by run: where every claim waited for the earlier drives of its process, finished means ended, and
      every accepted write builds on the one before it. */
  lemma WaitingClaimsSuffice(wf: Workflow, ls: seq<Label>, r: RunId)
    requires ClaimsWaited(wf, INIT, ls) && r in RunUnder(true, wf, INIT, ls).rows
    ensures var s := RunUnder(true, wf, INIT, ls);
            Lossless(wf, s, r) && (s.rows[r].finished <==> s.rows[r].status.Ended?)
  {
    GuardedRuns(wf, INIT, ls);
    NoTransitionLost(wf, ls, r);
    FinishedIffEnded(wf, ls, r);
  }
}
