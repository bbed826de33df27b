/**
 The change stream from commit to browser (realtime/src/listener.rs, hub.rs, ws.rs) as a transition
 system: a notification queue that dies with its connection, the listener's loop, the ring, and any
 number of clients.
 */
module Realtime {
  import opened Wrappers
  import opened Hub

  /** Where the listener's loop is. `owed` is `needs_resync`; `up` says the connection still
      carries notifications, which the listener learns only when `recv` fails. */
  datatype Listener =
    | Connecting(owed: bool)
    | Announcing(owed: bool, queue: seq<nat>, up: bool)
    | Receiving(queue: seq<nat>, up: bool)
    | Looking(id: nat, queue: seq<nat>, up: bool)

  /** A frame with the number of events committed when it was published or sent. */
  datatype Stamped = Stamped(frame: Frame, at: nat)

  type ClientId = nat
  datatype Client = Client(repos: seq<string>, since: nat, pos: nat, sent: seq<Stamped>)

  /** `committed[e]` is the repository of event `e`, if it names one. `from` is the first event the
      stream answers for: the one committed next when the first LISTEN succeeded, or 0 when a failed
      attempt came before it. */
  datatype System = System(committed: seq<Option<string>>, listener: Listener, from: Option<nat>,
                           log: seq<Stamped>, clients: map<ClientId, Client>)

  const INIT := System([], Connecting(false), None, [], map[])

  datatype Label =
    | Commit(repo: Option<string>)
    | ConnectFails
    | Connects
    | Announce
    | Break(keep: nat)
    | RecvFails
    | Recv
    | LookedUp(ok: bool)
    | Subscribe(c: ClientId, repos: seq<string>)
    | Deliver(c: ClientId)
    | Leave(c: ClientId)

  function Queue(l: Listener): seq<nat> {
    match l
    case Connecting(_) => []
    case Announcing(_, q, _) => q
    case Receiving(q, _) => q
    case Looking(id, q, _) => [id] + q
  }

  /** Notified of event `e`, while the connection is up. */
  function Notified(l: Listener, e: nat): Listener {
    match l
    case Connecting(_) => l
    case Announcing(o, q, up) => if up then Announcing(o, q + [e], up) else l
    case Receiving(q, up) => if up then Receiving(q + [e], up) else l
    case Looking(id, q, up) => if up then Looking(id, q + [e], up) else l
  }

  /** The connection is lost; of what was queued, a prefix can still be read. */
  function Broken(l: Listener, keep: nat): Listener {
    match l
    case Connecting(_) => l
    case Announcing(o, q, _) => Announcing(o, q[..Least(keep, |q|)], false)
    case Receiving(q, _) => Receiving(q[..Least(keep, |q|)], false)
    case Looking(id, q, _) => Looking(id, q[..Least(keep, |q|)], false)
  }

  function Least(a: nat, b: nat): nat {
    if a < b then a else b
  }

  function Publish(s: System, f: Frame): System {
    s.(log := s.log + [Stamped(f, |s.committed|)])
  }

  /** `frame_for`: a failed or empty lookup degrades to a resync. */
  function FrameFor(s: System, id: nat, ok: bool): Frame {
    if ok && id < |s.committed| && s.committed[id].Some? then Event(id, s.committed[id].value) else Resync
  }

  function Frames(log: seq<Stamped>): seq<Frame> {
    seq(|log|, i requires 0 <= i < |log| => log[i].frame)
  }

  /** One `rx.recv()` of the client loop: filter, or turn a lag into a resync. */
  function DeliverTo(s: System, cap: nat, c: Client): Client {
    var (r, next) := Receive(Frames(s.log), cap, c.pos);
    match r
    case Got(f) => if VisibleTo(f, c.repos) then c.(pos := next, sent := c.sent + [Stamped(f, |s.committed|)]) else c.(pos := next)
    case Lagged(_) => c.(pos := next, sent := c.sent + [Stamped(Resync, |s.committed|)])
    case Nothing => c
  }

  function Step(cap: nat, s: System, l: Label): System {
    match l
    case Commit(repo) => s.(committed := s.committed + [repo], listener := Notified(s.listener, |s.committed|))
    case ConnectFails => if s.listener.Connecting? then s.(listener := Connecting(true)) else s
    case Connects =>
      if !s.listener.Connecting? then s
      else s.(listener := Announcing(s.listener.owed, [], true),
              from := if s.from.Some? then s.from else if s.listener.owed then Some(0) else Some(|s.committed|))
    case Announce =>
      if !s.listener.Announcing? then s
      else
        var s' := s.(listener := Receiving(s.listener.queue, s.listener.up));
        if s.listener.owed then Publish(s', Resync) else s'
    case Break(keep) => s.(listener := Broken(s.listener, keep))
    case RecvFails => if s.listener.Receiving? then s.(listener := Connecting(true)) else s
    case Recv =>
      if s.listener.Receiving? && s.listener.queue != []
      then s.(listener := Looking(s.listener.queue[0], s.listener.queue[1..], s.listener.up))
      else s
    case LookedUp(ok) =>
      if s.listener.Looking?
      then Publish(s.(listener := Receiving(s.listener.queue, s.listener.up)), FrameFor(s, s.listener.id, ok))
      else s
    case Subscribe(c, repos) =>
      if c in s.clients then s else s.(clients := s.clients[c := Client(repos, |s.committed|, |s.log|, [])])
    case Deliver(c) => if c in s.clients then s.(clients := s.clients[c := DeliverTo(s, cap, s.clients[c])]) else s
    case Leave(c) => s.(clients := s.clients - {c})
  }

  function Run(cap: nat, ls: seq<Label>): System
    decreases |ls|
  {
    if ls == [] then INIT else Step(cap, Run(cap, ls[..|ls| - 1]), ls[|ls| - 1])
  }

  // ----- coverage -----

  /** Frame `x` answers for event `e` of `repo`: its own frame, or a resync from after its commit. */
  predicate Answers(x: Stamped, e: nat, repo: string) {
    x.frame == Event(e, repo) || (x.frame == Resync && x.at > e)
  }

  predicate AnsweredIn(xs: seq<Stamped>, lo: nat, e: nat, repo: string) {
    exists i :: lo <= i < |xs| && Answers(xs[i], e, repo)
  }

  /** A resync is bound to be published before the listener is connected and drained. */
  predicate Owes(l: Listener) {
    match l
    case Connecting(owed) => owed
    case Announcing(owed, _, up) => owed || !up
    case Receiving(_, up) => !up
    case Looking(_, _, up) => !up
  }

  predicate Covered(s: System, c: Client, e: nat, repo: string) {
    || e in Queue(s.listener)
    || Owes(s.listener)
    || AnsweredIn(s.log, c.pos, e, repo)
    || AnsweredIn(c.sent, 0, e, repo)
  }

  /** Events of client `c` the stream answers for. */
  predicate Due(s: System, c: Client, e: nat) {
    && c.since <= e < |s.committed| && s.from.Some? && s.from.value <= e
    && s.committed[e].Some? && s.committed[e].value in c.repos
  }

  ghost predicate ClientOk(s: System, c: Client) {
    && c.pos <= |s.log|
    && forall e: nat | Due(s, c, e) :: Covered(s, c, e, s.committed[e].value)
  }

  ghost predicate Inv(s: System) {
    && (forall i | 0 <= i < |s.log| :: s.log[i].at <= |s.committed|)
    && (s.from.None? ==> s.listener.Connecting?)
    && (s.from.Some? && s.listener.Connecting? ==> s.listener.owed)
    && forall c | c in s.clients :: ClientOk(s, s.clients[c])
  }

  lemma PublishAnswers(s: System, f: Frame, c: Client, e: nat, repo: string)
    requires c.pos <= |s.log|
    ensures AnsweredIn(s.log, c.pos, e, repo) ==> AnsweredIn(Publish(s, f).log, c.pos, e, repo)
    ensures Answers(Stamped(f, |s.committed|), e, repo) ==> AnsweredIn(Publish(s, f).log, c.pos, e, repo)
  {
    var log := Publish(s, f).log;
    if AnsweredIn(s.log, c.pos, e, repo) {
      var i :| c.pos <= i < |s.log| && Answers(s.log[i], e, repo);
      assert log[i] == s.log[i];
    }
    assert log[|s.log|] == Stamped(f, |s.committed|);
  }

  lemma CommitKeeps(s: System, c: Client, repo: Option<string>)
    requires Inv(s) && ClientOk(s, c)
    ensures ClientOk(s.(committed := s.committed + [repo], listener := Notified(s.listener, |s.committed|)), c)
  {
    var s' := s.(committed := s.committed + [repo], listener := Notified(s.listener, |s.committed|));
    forall e: nat | Due(s', c, e)
      ensures Covered(s', c, e, s'.committed[e].value)
    {
      if e < |s.committed| {
        assert Due(s, c, e);
      }
    }
  }

  lemma AnnounceKeeps(s: System, c: Client)
    requires Inv(s) && ClientOk(s, c) && s.listener.Announcing?
    ensures ClientOk(Step(1, s, Announce), c)
  {
    var s' := Step(1, s, Announce);
    forall e: nat | Due(s', c, e)
      ensures Covered(s', c, e, s'.committed[e].value)
    {
      assert Due(s, c, e);
      PublishAnswers(s, Resync, c, e, s.committed[e].value);
      assert s.listener.owed ==> s'.log == Publish(s, Resync).log;
    }
  }

  lemma LookedUpKeeps(s: System, c: Client, ok: bool)
    requires Inv(s) && ClientOk(s, c) && s.listener.Looking?
    ensures ClientOk(Step(1, s, LookedUp(ok)), c)
  {
    var s' := Step(1, s, LookedUp(ok));
    var f := FrameFor(s, s.listener.id, ok);
    forall e: nat | Due(s', c, e)
      ensures Covered(s', c, e, s'.committed[e].value)
    {
      assert Due(s, c, e);
      PublishAnswers(s, f, c, e, s.committed[e].value);
      assert s'.log == Publish(s, f).log;
    }
  }

  lemma QuietKeeps(s: System, c: Client, l: Label)
    requires Inv(s) && ClientOk(s, c)
    requires l.ConnectFails? || l.Connects? || l.Break? || l.RecvFails? || l.Recv?
    ensures ClientOk(Step(1, s, l), c)
  {
    var s' := Step(1, s, l);
    forall e: nat | Due(s', c, e)
      ensures Covered(s', c, e, s'.committed[e].value)
    {
      if s.from.Some? {
        assert Due(s, c, e);
      }
    }
  }

  lemma SentGrows(sent: seq<Stamped>, x: Stamped, e: nat, repo: string)
    requires AnsweredIn(sent, 0, e, repo) || Answers(x, e, repo)
    ensures AnsweredIn(sent + [x], 0, e, repo)
  {
    if AnsweredIn(sent, 0, e, repo) {
      var i :| 0 <= i < |sent| && Answers(sent[i], e, repo);
      assert (sent + [x])[i] == sent[i];
    } else {
      assert (sent + [x])[|sent|] == x;
    }
  }

  /** Reading one frame, or jumping over the lost ones with a resync, keeps every event covered. */
  lemma DeliverKeeps(s: System, cap: nat, c: Client)
    requires Inv(s) && ClientOk(s, c)
    ensures ClientOk(s, DeliverTo(s, cap, c))
  {
    var c' := DeliverTo(s, cap, c);
    forall e: nat | Due(s, c', e)
      ensures Covered(s, c', e, s.committed[e].value)
    {
      var repo := s.committed[e].value;
      assert Due(s, c, e);
      if AnsweredIn(c.sent, 0, e, repo) && c'.sent != c.sent {
        SentGrows(c.sent, c'.sent[|c.sent|], e, repo);
      } else if AnsweredIn(s.log, c.pos, e, repo) {
        var i :| c.pos <= i < |s.log| && Answers(s.log[i], e, repo);
        if i < c'.pos {
          SentGrows(c.sent, c'.sent[|c.sent|], e, repo);
        }
      }
    }
  }

  lemma StepKeeps(cap: nat, s: System, l: Label)
    requires Inv(s)
    ensures Inv(Step(cap, s, l))
  {
    var s' := Step(cap, s, l);
    forall c | c in s'.clients
      ensures ClientOk(s', s'.clients[c])
    {
      if c in s.clients {
        var cl := s.clients[c];
        assert ClientOk(s, cl);
        match l
        case Commit(repo) => CommitKeeps(s, cl, repo);
        case Announce => if s.listener.Announcing? { AnnounceKeeps(s, cl); }
        case LookedUp(ok) => if s.listener.Looking? { LookedUpKeeps(s, cl, ok); }
        case Deliver(d) => if c == d { DeliverKeeps(s, cap, cl); }
        case Subscribe(_, _) =>
        case Leave(_) =>
        case _ => QuietKeeps(s, cl, l);
      }
    }
  }

  lemma {:induction false} RunKeeps(cap: nat, ls: seq<Label>)
    ensures Inv(Run(cap, ls))
    decreases |ls|
  {
    if ls != [] {
      RunKeeps(cap, ls[..|ls| - 1]);
      StepKeeps(cap, Run(cap, ls[..|ls| - 1]), ls[|ls| - 1]);
    }
  }

  /** No silent gap: once the listener is connected and the queues are drained, every event a client
      may see, committed since it subscribed and since the first LISTEN, was sent to it or followed
      by a resync sent after its commit. */
  lemma NoSilentGap(cap: nat, ls: seq<Label>, c: ClientId, e: nat)
    requires c in Run(cap, ls).clients
    requires var s := Run(cap, ls); s.listener == Receiving([], true) && s.clients[c].pos == |s.log|
    requires Due(Run(cap, ls), Run(cap, ls).clients[c], e)
    ensures AnsweredIn(Run(cap, ls).clients[c].sent, 0, e, Run(cap, ls).committed[e].value)
  {
    RunKeeps(cap, ls);
  }

  /** What a client is sent: events it may see, each one committed and of its own repository, and
      resyncs. */
  ghost predicate Honest(s: System) {
    && (forall i | 0 <= i < |s.log| :: s.log[i].frame.Event? ==>
          s.log[i].frame.id < |s.committed| && s.committed[s.log[i].frame.id] == Some(s.log[i].frame.repo))
    && (forall c, i | c in s.clients && 0 <= i < |s.clients[c].sent| :: s.clients[c].sent[i].frame.Event? ==>
          var f := s.clients[c].sent[i].frame;
          f.repo in s.clients[c].repos && f.id < |s.committed| && s.committed[f.id] == Some(f.repo))
  }

  lemma StepIsHonest(cap: nat, s: System, l: Label)
    requires Honest(s)
    ensures Honest(Step(cap, s, l))
  {
  }

  lemma {:induction false} NothingForeignIsSent(cap: nat, ls: seq<Label>)
    ensures Honest(Run(cap, ls))
    decreases |ls|
  {
    if ls != [] {
      NothingForeignIsSent(cap, ls[..|ls| - 1]);
      StepIsHonest(cap, Run(cap, ls[..|ls| - 1]), ls[|ls| - 1]);
    }
  }

  /** Why `from` is needed: with a clean first connect, a client that subscribed earlier misses an
      event committed before LISTEN, and no resync tells it. */
  lemma EarlyEventIsMissed(cap: nat, repo: string)
    ensures var s := Run(cap, [Subscribe(0, [repo]), Commit(Some(repo)), Connects, Announce]);
            && s.listener == Receiving([], true) && 0 in s.clients && s.clients[0].pos == |s.log|
            && s.committed == [Some(repo)] && s.clients[0].since == 0 && s.clients[0].sent == []
  {
    var ls := [Subscribe(0, [repo]), Commit(Some(repo)), Connects, Announce];
    assert ls[..3][..2] == ls[..2] && ls[..2][..1] == ls[..1] && ls[..1][..0] == [];
    assert Run(cap, ls[..1]) == Step(cap, INIT, ls[0]);
    assert Run(cap, ls[..2]) == Step(cap, Run(cap, ls[..1]), ls[1]);
    assert Run(cap, ls[..3]) == Step(cap, Run(cap, ls[..2]), ls[2]);
  }

  /** Nothing that is read, published or sent is about an event before `from`, and nothing at all happens
      before `from` is fixed. */
  ghost predicate FromOn(s: System) {
    match s.from
    case None => s.log == [] && Queue(s.listener) == [] && forall c | c in s.clients :: s.clients[c].sent == []
    case Some(from) =>
      && from <= |s.committed|
      && (forall i | 0 <= i < |Queue(s.listener)| :: Queue(s.listener)[i] >= from)
      && (forall i | 0 <= i < |s.log| :: NotBefore(s.log[i], from))
      && (forall c, i | c in s.clients && 0 <= i < |s.clients[c].sent| :: NotBefore(s.clients[c].sent[i], from))
  }

  predicate NotBefore(x: Stamped, from: nat) {
    x.at >= from && (x.frame.Event? ==> x.frame.id >= from)
  }

  lemma DeliverFromOn(s: System, cap: nat, c: Client, from: nat)
    requires from <= |s.committed| && forall i | 0 <= i < |s.log| :: NotBefore(s.log[i], from)
    requires forall i | 0 <= i < |c.sent| :: NotBefore(c.sent[i], from)
    ensures forall i | 0 <= i < |DeliverTo(s, cap, c).sent| :: NotBefore(DeliverTo(s, cap, c).sent[i], from)
  {
    var (r, next) := Receive(Frames(s.log), cap, c.pos);
    if r.Got? {
      assert r.f == s.log[c.pos].frame && NotBefore(s.log[c.pos], from);
    }
  }

  lemma QueueFromOn(cap: nat, s: System, l: Label)
    requires FromOn(s) && (s.from.None? ==> s.listener.Connecting?) && (l.Commit? || l.Break?)
    ensures FromOn(Step(cap, s, l))
  {
    var q := Queue(s.listener);
    match l
    case Commit(_) => assert Queue(Notified(s.listener, |s.committed|)) <= q + [|s.committed|];
    case Break(keep) => assert Queue(Broken(s.listener, keep)) <= q;
  }

  lemma ListenerFromOn(cap: nat, s: System, l: Label)
    requires FromOn(s) && (s.from.None? ==> s.listener.Connecting?)
    requires !l.Deliver? && !l.Subscribe? && !l.Leave? && !l.Commit? && !l.Break?
    ensures FromOn(Step(cap, s, l))
  {
    var q := Queue(s.listener);
    match l
    case Recv => assert s.listener.Receiving? && q != [] ==> q == [q[0]] + q[1..];
    case LookedUp(_) =>
      if s.listener.Looking? {
        assert q[0] == s.listener.id && q[1..] == s.listener.queue;
        assert forall i | 0 <= i < |s.listener.queue| :: s.listener.queue[i] == q[i + 1];
      }
    case _ =>
  }

  lemma StepFromOn(cap: nat, s: System, l: Label)
    requires FromOn(s) && Inv(s)
    ensures FromOn(Step(cap, s, l))
  {
    match l
    case Deliver(c) =>
      if c in s.clients && s.from.Some? {
        DeliverFromOn(s, cap, s.clients[c], s.from.value);
      }
    case Subscribe(_, _) =>
    case Leave(_) =>
    case Commit(_) => QueueFromOn(cap, s, l);
    case Break(_) => QueueFromOn(cap, s, l);
    case _ => ListenerFromOn(cap, s, l);
  }

  lemma {:induction false} RunFromOn(cap: nat, ls: seq<Label>)
    ensures FromOn(Run(cap, ls))
    decreases |ls|
  {
    if ls != [] {
      RunKeeps(cap, ls[..|ls| - 1]);
      RunFromOn(cap, ls[..|ls| - 1]);
      StepFromOn(cap, Run(cap, ls[..|ls| - 1]), ls[|ls| - 1]);
    }
  }

  predicate GotResync(c: Client) {
    exists i :: 0 <= i < |c.sent| && c.sent[i].frame == Resync
  }

  /** An event from before the stream answers is never sent; a client is told of it exactly by any resync. */
  lemma {:induction false} EarlyEventIff(cap: nat, ls: seq<Label>, c: ClientId, e: nat, repo: string)
    requires c in Run(cap, ls).clients
    requires Run(cap, ls).from.Some? ==> e < Run(cap, ls).from.value
    ensures AnsweredIn(Run(cap, ls).clients[c].sent, 0, e, repo) <==> GotResync(Run(cap, ls).clients[c])
  {
    RunFromOn(cap, ls);
    var s := Run(cap, ls);
    var sent := s.clients[c].sent;
    if s.from.Some? {
      if AnsweredIn(sent, 0, e, repo) {
        var i :| 0 <= i < |sent| && Answers(sent[i], e, repo);
        assert NotBefore(sent[i], s.from.value);
      }
      if GotResync(s.clients[c]) {
        var i :| 0 <= i < |sent| && sent[i].frame == Resync;
        assert NotBefore(sent[i], s.from.value);
        assert Answers(sent[i], e, repo);
      }
    }
  }

  /** Together: once the listener is connected and the queues are drained, a client has been told of a visible
      event committed since it subscribed exactly if the stream answers for the event or the client got any
      resync. What is missed is missed only this way. */
  lemma {:induction false} ToldIff(cap: nat, ls: seq<Label>, c: ClientId, e: nat)
    requires c in Run(cap, ls).clients
    requires var s := Run(cap, ls); s.listener == Receiving([], true) && s.clients[c].pos == |s.log|
    requires var s := Run(cap, ls);
             s.clients[c].since <= e < |s.committed| && s.committed[e].Some? && s.committed[e].value in s.clients[c].repos
    ensures var s := Run(cap, ls);
            AnsweredIn(s.clients[c].sent, 0, e, s.committed[e].value)
            <==> (s.from.Some? && s.from.value <= e) || GotResync(s.clients[c])
  {
    var s := Run(cap, ls);
    if s.from.Some? && s.from.value <= e {
      NoSilentGap(cap, ls, c, e);
    } else {
      EarlyEventIff(cap, ls, c, e, s.committed[e].value);
    }
  }

  // ----- the two loops, run by themselves -----

  /** What one connection attempt of the listener brings: a refusal, or the notifications read before the
      connection is lost, each with what its lookup says. */
  datatype Attempt = Refused | Accepted(events: seq<(nat, Option<string>)>)

  /** `frame_for`. */
  function FrameOf(id: nat, repo: Option<string>): Frame {
    match repo
    case Some(r) => Event(id, r)
    case None => Resync
  }

  function FramesOf(events: seq<(nat, Option<string>)>): seq<Frame> {
    seq(|events|, i requires 0 <= i < |events| => FrameOf(events[i].0, events[i].1))
  }

  /** What the attempts publish: each accepted one its frames, and all but the very first attempt a resync
      before them. */
  function Published(attempts: seq<Attempt>): seq<Frame> {
    if attempts == [] then []
    else
      var front, last := attempts[..|attempts| - 1], attempts[|attempts| - 1];
      Published(front) + (if last.Refused? then [] else (if front == [] then [] else [Resync]) + FramesOf(last.events))
  }

  lemma PublishedOneMore(attempts: seq<Attempt>, a: Attempt)
    ensures Published(attempts + [a])
         == Published(attempts) + (if a.Refused? then [] else (if attempts == [] then [] else [Resync]) + FramesOf(a.events))
  {
    assert (attempts + [a])[..|attempts|] == attempts;
  }

  /** From `lo` up to `hi` stands what attempt `n` published: a resync, unless it is the very first, and then
      its frames; of a refused attempt nothing. */
  predicate Carries(fs: seq<Frame>, lo: nat, hi: nat, n: nat, a: Attempt) {
    && lo <= hi <= |fs|
    && match a
       case Refused => hi == lo
       case Accepted(events) =>
         && hi == lo + (if n > 0 then 1 else 0) + |events| && (n > 0 ==> fs[lo] == Resync)
         && forall i | 0 <= i < |events| :: fs[hi - |events| + i] == FrameOf(events[i].0, events[i].1)
  }

  predicate AllCarried(fs: seq<Frame>, starts: seq<nat>, attempts: seq<Attempt>) {
    |starts| == |attempts| + 1 && forall n | 0 <= n < |attempts| :: Carries(fs, starts[n], starts[n + 1], n, attempts[n])
  }

  lemma CarriesOn(fs: seq<Frame>, fs': seq<Frame>, starts: seq<nat>, hi: nat, attempts: seq<Attempt>, a: Attempt)
    requires AllCarried(fs, starts, attempts) && fs <= fs' && Carries(fs', starts[|attempts|], hi, |attempts|, a)
    ensures AllCarried(fs', starts + [hi], attempts + [a])
  {
    var starts', attempts' := starts + [hi], attempts + [a];
    forall n | 0 <= n < |attempts'| ensures Carries(fs', starts'[n], starts'[n + 1], n, attempts'[n]) {
      if n < |attempts| {
        assert Carries(fs, starts[n], starts[n + 1], n, attempts[n]);
        assert starts'[n] == starts[n] && starts'[n + 1] == starts[n + 1];
      }
    }
  }

  /** From `was` to `fs` the attempts published what they carry, one after the other, the `n`-th from `starts[n]`
      on. */
  predicate PublishedAt(was: seq<Frame>, fs: seq<Frame>, starts: seq<nat>, attempts: seq<Attempt>) {
    && fs == was + Published(attempts) && AllCarried(fs, starts, attempts)
    && starts[0] == |was| && starts[|attempts|] == |fs|
  }

  lemma PublishedOn(was: seq<Frame>, fs: seq<Frame>, fs': seq<Frame>, starts: seq<nat>, attempts: seq<Attempt>, a: Attempt)
    requires PublishedAt(was, fs, starts, attempts) && Carries(fs', |fs|, |fs'|, |attempts|, a)
    requires fs' == fs + (if a.Refused? then [] else (if |attempts| > 0 then [Resync] else []) + FramesOf(a.events))
    ensures PublishedAt(was, fs', starts + [|fs'|], attempts + [a])
  {
    PublishedOneMore(attempts, a);
    CarriesOn(fs, fs', starts, |fs'|, attempts, a);
  }

  /** `run` of the listener, over any finite stretch of attempts: attempt after attempt, each accepted one but
      the very first publishes a resync before its frames. */
  method Listen(h: Hub<Frame>, attempts: seq<Attempt>) returns (ghost starts: seq<nat>)
    requires h.Valid()
    modifies h
    ensures h.Valid() && PublishedAt(old(h.published), h.published, starts, attempts)
  {
    var needsResync := false;
    starts := [|h.published|];
    for n := 0 to |attempts|
      invariant h.Valid() && needsResync == (n > 0)
      invariant PublishedAt(old(h.published), h.published, starts, attempts[..n])
    {
      ghost var was := h.published;
      Attempted(h, attempts[n], needsResync, n);
      needsResync := true;
      PublishedOn(old(h.published), was, h.published, starts, attempts[..n], attempts[n]);
      assert attempts[..n + 1] == attempts[..n] + [attempts[n]];
      starts := starts + [|h.published|];
    }
    assert attempts[..|attempts|] == attempts;
  }

  /** One connection attempt, the `n`-th. */
  method Attempted(h: Hub<Frame>, a: Attempt, needsResync: bool, ghost n: nat)
    requires h.Valid() && needsResync == (n > 0)
    modifies h
    ensures h.Valid()
    ensures h.published == old(h.published)
                           + (if a.Refused? then [] else (if n > 0 then [Resync] else []) + FramesOf(a.events))
    ensures Carries(h.published, |old(h.published)|, |h.published|, n, a)
  {
    match a {
      case Refused =>
      case Accepted(events) =>
        if needsResync {
          h.Publish(Resync);
        }
        Relay(h, events);
    }
  }

  /** The inner loop, up to the loss of the connection. */
  method Relay(h: Hub<Frame>, events: seq<(nat, Option<string>)>)
    requires h.Valid()
    modifies h
    ensures h.Valid() && h.published == old(h.published) + FramesOf(events)
  {
    for i := 0 to |events|
      invariant h.Valid() && h.published == old(h.published) + FramesOf(events)[..i]
    {
      h.Publish(FrameOf(events[i].0, events[i].1));
    }
    assert FramesOf(events)[..|events|] == FramesOf(events);
  }

  function Visible(fs: seq<Frame>, repos: seq<string>): seq<Frame> {
    if fs == [] then []
    else
      var front, last := fs[..|fs| - 1], fs[|fs| - 1];
      if VisibleTo(last, repos) then Visible(front, repos) + [last] else Visible(front, repos)
  }

  lemma VisibleNext(fs: seq<Frame>, from: nat, pos: nat, repos: seq<string>)
    requires from <= pos < |fs|
    ensures Visible(fs[from..pos + 1], repos)
         == Visible(fs[from..pos], repos) + if VisibleTo(fs[pos], repos) then [fs[pos]] else []
  {
    assert fs[from..pos + 1][..pos - from] == fs[from..pos];
  }

  /** The `rx.recv()` arm of the client loop until nothing is left: one resync for all that was lost, then
      every visible frame the ring still holds, in order. */
  method Drain(h: Hub<Frame>, repos: seq<string>, start: nat) returns (sent: seq<Frame>, pos: nat)
    requires h.Valid() && start <= h.total
    ensures pos == |h.published|
    ensures var low := Oldest(|h.published|, h.cap);
            sent == (if start < low then [Resync] else []) + Visible(h.published[if start < low then low else start..], repos)
    ensures sent == DrainedFrom(h.published, h.cap, start, repos)
  {
    sent, pos := [], start;
    ghost var fs, low := h.published, Oldest(|h.published|, h.cap);
    ghost var from, head := if start < low then low else start, if start < low then [Resync] else [];
    var r, next := h.Recv(pos);
    while r != Nothing
      invariant pos <= |fs| == h.total && (r, next) == Receive(fs, h.cap, pos)
      invariant if start < low && pos == start then sent == [] else
                  from <= pos && sent == head + Visible(fs[from..pos], repos)
      decreases h.total - pos, pos < low
    {
      match r {
        case Got(f) =>
          VisibleNext(fs, from, pos, repos);
          if VisibleTo(f, repos) {
            sent := sent + [f];
          }
        case Lagged(_) => sent := sent + [Resync];
        case Nothing =>
      }
      pos := next;
      r, next := h.Recv(pos);
    }
    assert fs[from..pos] == fs[from..];
  }

  // ----- the loops and the transition system -----

  /** The attempts of a run: how each ended or was accepted, with the events looked up on it so far. */
  function AttemptsOf(cap: nat, ls: seq<Label>): seq<Attempt>
    decreases |ls|
  {
    if ls == [] then []
    else
      var s, sofar := Run(cap, ls[..|ls| - 1]), AttemptsOf(cap, ls[..|ls| - 1]);
      match ls[|ls| - 1]
      case ConnectFails => if s.listener.Connecting? then sofar + [Refused] else sofar
      case Connects => if s.listener.Connecting? then sofar + [Accepted([])] else sofar
      case LookedUp(ok) =>
        if s.listener.Looking? && sofar != [] && sofar[|sofar| - 1].Accepted?
        then sofar[..|sofar| - 1] + [Accepted(sofar[|sofar| - 1].events + [(s.listener.id, RepoOf(s, s.listener.id, ok))])]
        else sofar
      case _ => sofar
  }

  /** What the lookup of an event says. */
  function RepoOf(s: System, id: nat, ok: bool): Option<string> {
    if ok && id < |s.committed| then s.committed[id] else None
  }

  /** The log is what the attempts publish, up to the resync that an attempt has yet to publish. */
  predicate Refines(s: System, attempts: seq<Attempt>) {
    match s.listener
    case Connecting(owed) => owed == (attempts != []) && Frames(s.log) == Published(attempts)
    case Announcing(owed, _, _) =>
      && attempts != [] && attempts[|attempts| - 1] == Accepted([]) && owed == (|attempts| > 1)
      && Frames(s.log) == Published(attempts[..|attempts| - 1])
    case _ => attempts != [] && attempts[|attempts| - 1].Accepted? && Frames(s.log) == Published(attempts)
  }

  lemma OneMoreEvent(attempts: seq<Attempt>, events: seq<(nat, Option<string>)>, e: (nat, Option<string>))
    ensures Published(attempts + [Accepted(events + [e])]) == Published(attempts + [Accepted(events)]) + [FrameOf(e.0, e.1)]
  {
    PublishedOneMore(attempts, Accepted(events));
    PublishedOneMore(attempts, Accepted(events + [e]));
    assert FramesOf(events + [e]) == FramesOf(events) + [FrameOf(e.0, e.1)];
  }

  lemma PublishAdds(s: System, f: Frame)
    ensures Frames(Publish(s, f).log) == Frames(s.log) + [f]
  {
  }

  lemma AnnounceRefines(s: System, attempts: seq<Attempt>)
    requires Refines(s, attempts) && s.listener.Announcing?
    ensures Refines(Step(0, s, Announce), attempts)
  {
    var front := attempts[..|attempts| - 1];
    assert attempts == front + [Accepted([])];
    PublishedOneMore(front, Accepted([]));
    PublishAdds(s, Resync);
    assert FramesOf([]) == [];
  }

  lemma LookedUpRefines(s: System, attempts: seq<Attempt>, ok: bool)
    requires Refines(s, attempts) && s.listener.Looking?
    ensures var e := (s.listener.id, RepoOf(s, s.listener.id, ok));
            Refines(Step(0, s, LookedUp(ok)),
                    attempts[..|attempts| - 1] + [Accepted(attempts[|attempts| - 1].events + [e])])
  {
    var front, last := attempts[..|attempts| - 1], attempts[|attempts| - 1];
    assert attempts == front + [Accepted(last.events)];
    OneMoreEvent(front, last.events, (s.listener.id, RepoOf(s, s.listener.id, ok)));
    PublishAdds(s, FrameFor(s, s.listener.id, ok));
  }

  lemma ConnectRefines(s: System, attempts: seq<Attempt>, ok: bool)
    requires Refines(s, attempts) && s.listener.Connecting?
    ensures if ok then Refines(Step(0, s, Connects), attempts + [Accepted([])])
            else Refines(Step(0, s, ConnectFails), attempts + [Refused])
  {
    PublishedOneMore(attempts, Refused);
    assert (attempts + [Accepted([])])[..|attempts|] == attempts;
  }

  lemma {:induction false} RunRefines(cap: nat, ls: seq<Label>)
    ensures Refines(Run(cap, ls), AttemptsOf(cap, ls))
    decreases |ls|
  {
    if ls != [] {
      var s, sofar := Run(cap, ls[..|ls| - 1]), AttemptsOf(cap, ls[..|ls| - 1]);
      RunRefines(cap, ls[..|ls| - 1]);
      match ls[|ls| - 1]
      case ConnectFails => if s.listener.Connecting? { ConnectRefines(s, sofar, false); }
      case Connects => if s.listener.Connecting? { ConnectRefines(s, sofar, true); }
      case Announce => if s.listener.Announcing? { AnnounceRefines(s, sofar); }
      case LookedUp(ok) => if s.listener.Looking? { LookedUpRefines(s, sofar, ok); }
      case _ =>
    }
  }

  /** Whatever happens, the log of the system is what the listener's loop publishes for the attempts of that
      run; so what holds of the log, that it leaves no silent gap, holds of the loop. */
  lemma LogIsPublished(cap: nat, ls: seq<Label>)
    requires !Run(cap, ls).listener.Announcing?
    ensures Frames(Run(cap, ls).log) == Published(AttemptsOf(cap, ls))
  {
    RunRefines(cap, ls);
  }

  /** The loop itself, on a ring of its own. */
  method ListenAsRun(cap: nat, ls: seq<Label>, attempts: seq<Attempt>) returns (h: Hub<Frame>)
    requires cap > 0 && !Run(cap, ls).listener.Announcing? && attempts == AttemptsOf(cap, ls)
    ensures fresh(h) && h.Valid() && h.cap == cap && h.published == Frames(Run(cap, ls).log)
  {
    LogIsPublished(cap, ls);
    h := new Hub<Frame>(cap);
    var _ := Listen(h, attempts);
  }

  /** `n` frames read one after the other. */
  function DeliverTimes(s: System, cap: nat, c: Client, n: nat): Client {
    if n == 0 then c else DeliverTo(s, cap, DeliverTimes(s, cap, c, n - 1))
  }

  lemma {:induction false} DeliverFirst(s: System, cap: nat, c: Client, n: nat)
    ensures DeliverTimes(s, cap, DeliverTo(s, cap, c), n) == DeliverTimes(s, cap, c, n + 1)
  {
    if n > 0 {
      DeliverFirst(s, cap, c, n - 1);
    }
  }

  lemma {:induction false} VisibleFirst(fs: seq<Frame>, repos: seq<string>)
    requires fs != []
    ensures Visible(fs, repos) == (if VisibleTo(fs[0], repos) then [fs[0]] else []) + Visible(fs[1..], repos)
    decreases |fs|
  {
    if |fs| > 1 {
      VisibleFirst(fs[..|fs| - 1], repos);
      assert fs[..|fs| - 1][1..] == fs[1..][..|fs| - 2];
    }
  }

  /** What a client at `pos` is sent until nothing is left. */
  function DrainedFrom(fs: seq<Frame>, cap: nat, pos: nat, repos: seq<string>): seq<Frame>
    requires pos <= |fs|
  {
    var low := Oldest(|fs|, cap);
    if pos < low then [Resync] + Visible(fs[low..], repos) else Visible(fs[pos..], repos)
  }

  /** `Drain` is the client's deliveries, one after the other, until it has read everything. */
  lemma {:induction false} DrainIsDelivery(s: System, cap: nat, c: Client) returns (n: nat)
    requires c.pos <= |s.log| && cap > 0
    ensures var c' := DeliverTimes(s, cap, c, n);
            c'.pos == |s.log| && Frames(c'.sent) == Frames(c.sent) + DrainedFrom(Frames(s.log), cap, c.pos, c.repos)
    decreases |s.log| - c.pos
  {
    var fs := Frames(s.log);
    if c.pos == |fs| {
      n := 0;
    } else {
      var next := DeliverTo(s, cap, c);
      OneDelivery(s, cap, c);
      var k := DrainIsDelivery(s, cap, next);
      DeliverFirst(s, cap, c, k);
      n := k + 1;
    }
  }

  lemma OneDelivery(s: System, cap: nat, c: Client)
    requires c.pos < |s.log| && cap > 0
    ensures var next, fs := DeliverTo(s, cap, c), Frames(s.log);
            && c.pos < next.pos <= |fs| && next.repos == c.repos
            && Frames(c.sent) + DrainedFrom(fs, cap, c.pos, c.repos)
               == Frames(next.sent) + DrainedFrom(fs, cap, next.pos, c.repos)
  {
    var next, fs := DeliverTo(s, cap, c), Frames(s.log);
    var low := Oldest(|fs|, cap);
    if c.pos < low {
      assert Frames(next.sent) == Frames(c.sent) + [Resync];
    } else {
      VisibleFirst(fs[c.pos..], c.repos);
      assert fs[c.pos..][0] == fs[c.pos] && fs[c.pos..][1..] == fs[c.pos + 1..];
      assert VisibleTo(fs[c.pos], c.repos) ==> Frames(next.sent) == Frames(c.sent) + [fs[c.pos]];
    }
  }
}
