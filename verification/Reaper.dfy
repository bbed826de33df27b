/**
 Reaping children (sandbox-container/src/reaper.rs): the registry of spawned children, the reaping pass
 and delivery of exit statuses, against a kernel that reuses a pid once it was waited for.
 */
module Reaper {
  import opened Wrappers

  datatype ExitStatus = Exited(code: int) | Signaled(sig: int)

  datatype WaitStatus = ExitOf(pid: int, code: int) | SignalOf(pid: int, sig: int) | Other

  /** What one `waitpid(-1, WNOHANG)` says. */
  datatype Waited = StillAlive | NoChild | Interrupted | Failed | Ok(st: WaitStatus)

  function Decode(st: WaitStatus): Option<(int, ExitStatus)> {
    match st
    case ExitOf(pid, code) => Some((pid, Exited(code)))
    case SignalOf(pid, sig) => Some((pid, Signaled(sig)))
    case Other => None
  }

  /** A channel is known by the number of the spawn that made it. */
  datatype Registry = Registry(children: map<int, nat>, sent: seq<(nat, ExitStatus)>)

  function Delivered(r: Registry, pid: int, st: ExitStatus): Registry {
    if pid in r.children then Registry(r.children - {pid}, r.sent + [(r.children[pid], st)]) else r
  }

  function Ends(w: Waited): bool {
    w == StillAlive || w == NoChild || w == Failed
  }

  /** The children a pass waited for, in order: what it was told up to the first answer that ends it. */
  function Reaped(answers: seq<Waited>): seq<(int, ExitStatus)> {
    if answers == [] || Ends(answers[0]) then []
    else
      (if answers[0].Ok? && Decode(answers[0].st).Some? then [Decode(answers[0].st).value] else [])
      + Reaped(answers[1..])
  }

  function DeliveredAll(r: Registry, reaped: seq<(int, ExitStatus)>): Registry
    decreases |reaped|
  {
    if reaped == [] then r
    else
      var (pid, st) := reaped[|reaped| - 1];
      Delivered(DeliveredAll(r, reaped[..|reaped| - 1]), pid, st)
  }

  class Reaper {
    const reapAll: bool
    var children: map<int, nat>
    var sent: seq<(nat, ExitStatus)>

    constructor (reapAll: bool)
      ensures this.reapAll == reapAll && Held() == Registry(map[], [])
    {
      this.reapAll, children, sent := reapAll, map[], [];
    }

    function Held(): Registry
      reads this
    {
      Registry(children, sent)
    }

    /** `f` is what the spawning closure returned: the child's pid, or an error. */
    method SpawnWith(f: Option<int>, chan: nat) returns (ok: bool)
      modifies this
      ensures ok == f.Some? && sent == old(sent)
      ensures children == if f.Some? then old(children)[f.value := chan] else old(children)
    {
      if f == None {
        return false;
      }
      children := children[f.value := chan];
      return true;
    }

    /** A status goes to the channel registered under the pid, which is then forgotten, so that it gets no
        second one; an orphan's goes nowhere. Entries only turn into statuses sent. */
    method Deliver(pid: int, st: ExitStatus)
      modifies this
      ensures Held() == Delivered(old(Held()), pid, st)
      ensures pid !in children && forall p | p != pid :: p in children <==> p in old(children)
      ensures forall p | p in children :: children[p] == old(children)[p]
      ensures |children| + |sent| == |old(children)| + |old(sent)|
      ensures old(sent) <= sent
      ensures pid in old(children) ==> sent[|old(sent)|..] == [(old(children)[pid], st)]
    {
      if pid in children {
        sent := sent + [(children[pid], st)];
        children := children - {pid};
      }
    }

    /** One pass in reap-all mode; `answers` is what the kernel says, the last one ends the pass. */
    method ReapAll(answers: seq<Waited>) returns (n: nat)
      modifies this
      ensures Held() == DeliveredAll(old(Held()), Reaped(answers)) && n == |Reaped(answers)|
    {
      n := 0;
      var i := 0;
      ghost var got := [];
      while i < |answers|
        invariant i <= |answers| && got + Reaped(answers[i..]) == Reaped(answers)
        invariant Held() == DeliveredAll(old(Held()), got) && n == |got|
      {
        var w := answers[i];
        ghost var rest := answers[i..];
        assert rest[0] == w && rest[1..] == answers[i + 1..];
        if Ends(w) {
          break;
        }
        if w.Ok? {
          var d := Decode(w.st);
          if d.Some? {
            n := n + 1;
            Deliver(d.value.0, d.value.1);
            assert (got + [d.value])[..|got|] == got;
            got := got + [d.value];
          }
        }
        i := i + 1;
      }
      assert got + [] == got;
    }

    /** One pass that waits only for registered pids, the keys in some order. */
    method ReapRegistered(pids: seq<int>, answers: map<int, Waited>) returns (n: nat)
      requires (set p | p in pids) == children.Keys && children.Keys <= answers.Keys
      modifies this
      ensures Held() == DeliveredAll(old(Held()), ReapedOf(pids, answers)) && n == |ReapedOf(pids, answers)|
    {
      n := 0;
      for i := 0 to |pids|
        invariant Held() == DeliveredAll(old(Held()), ReapedOf(pids[..i], answers))
        invariant n == |ReapedOf(pids[..i], answers)|
      {
        assert pids[..i + 1][..i] == pids[..i];
        ghost var got := ReapedOf(pids[..i], answers);
        var pid := pids[i];
        var st := ReapedOne(pid, answers[pid]);
        if st.Some? {
          assert (got + [(pid, st.value)])[..|got|] == got;
          n := n + 1;
          Deliver(pid, st.value);
        }
      }
      assert pids[..|pids|] == pids;
    }
  }

  /** What is reported for a registered pid: a pid somebody else reaped is reported as lost. */
  function ReapedOne(pid: int, w: Waited): Option<ExitStatus> {
    match w
    case NoChild => Some(Signaled(0))
    case Ok(st) => (match Decode(st) case Some(d) => Some(d.1) case None => None)
    case _ => None
  }

  function ReapedOf(pids: seq<int>, answers: map<int, Waited>): seq<(int, ExitStatus)>
    requires forall p | p in pids :: p in answers
  {
    if pids == [] then []
    else
      var front, pid := ReapedOf(pids[..|pids| - 1], answers), pids[|pids| - 1];
      match ReapedOne(pid, answers[pid])
      case Some(st) => front + [(pid, st)]
      case None => front
  }

  // ----- what a pass reports -----

  /** The kernel says that the child `pid` ended so. */
  predicate Says(w: Waited, pid: int, st: ExitStatus) {
    match st
    case Exited(code) => w == Ok(ExitOf(pid, code))
    case Signaled(sig) => w == Ok(SignalOf(pid, sig))
  }

  function Telling(child: (int, ExitStatus)): Waited {
    match child.1
    case Exited(code) => Ok(ExitOf(child.0, code))
    case Signaled(sig) => Ok(SignalOf(child.0, sig))
  }

  function TellingAll(told: seq<(int, ExitStatus)>): seq<Waited> {
    if told == [] then [] else [Telling(told[0])] + TellingAll(told[1..])
  }

  /** A pass reports the exits and deaths by signal it is told of, in order, up to the first answer that ends
      it, whatever would come then. */
  lemma {:induction false} ReportsWhatItIsTold(told: seq<(int, ExitStatus)>, end: Waited, more: seq<Waited>)
    requires end == StillAlive || end == NoChild || end == Failed
    ensures Reaped(TellingAll(told) + ([end] + more)) == told
  {
    if told == [] {
      assert TellingAll(told) + ([end] + more) == [end] + more;
    } else {
      var rest := TellingAll(told[1..]) + ([end] + more);
      ReportsWhatItIsTold(told[1..], end, more);
      assert TellingAll(told) + ([end] + more) == [Telling(told[0])] + rest;
      TellsFirst(told[0], rest);
    }
  }

  lemma TellsFirst(child: (int, ExitStatus), rest: seq<Waited>)
    ensures Reaped([Telling(child)] + rest) == [child] + Reaped(rest)
  {
    assert ([Telling(child)] + rest)[1..] == rest;
  }

  /** An interrupted call and a child that only stopped make no difference. */
  lemma {:induction false} NoiseIsSkipped(before: seq<Waited>, noise: Waited, after: seq<Waited>)
    requires noise == Interrupted || noise == Ok(Other)
    ensures Reaped(before + ([noise] + after)) == Reaped(before + after)
  {
    if before == [] {
      assert before + ([noise] + after) == [noise] + after && before + after == after;
      assert ([noise] + after)[1..] == after;
    } else {
      NoiseIsSkipped(before[1..], noise, after);
      assert (before + ([noise] + after))[1..] == before[1..] + ([noise] + after);
      assert (before + after)[1..] == before[1..] + after;
    }
  }

  /** Of a registered pid exactly its exit, its death by signal, or that it is gone is reported. */
  lemma ReapedOneIff(pid: int, w: Waited, st: ExitStatus)
    ensures ReapedOne(pid, w) == Some(st) <==>
              || (w == NoChild && st == Signaled(0))
              || (exists p :: Says(w, p, st))
  {
    if w.Ok? && !w.st.Other? {
      assert Says(w, w.st.pid, st) <==> ReapedOne(pid, w) == Some(st);
    }
  }

  /** A pass over registered pids reports each of them of which there is something to report, once. */
  lemma {:induction false} ReapedOfIff(pids: seq<int>, answers: map<int, Waited>, pid: int, st: ExitStatus)
    requires forall p | p in pids :: p in answers
    ensures (pid, st) in ReapedOf(pids, answers) <==> pid in pids && ReapedOne(pid, answers[pid]) == Some(st)
    ensures |ReapedOf(pids, answers)| <= |pids|
    decreases |pids|
  {
    if pids != [] {
      var front, last := pids[..|pids| - 1], pids[|pids| - 1];
      ReapedOfIff(front, answers, pid, st);
      assert pids == front + [last];
    }
  }
}
