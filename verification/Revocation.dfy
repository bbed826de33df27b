/**
 Live revocation in the sandbox proxy (sandbox-proxy/src/kube_resolver.rs, resolver.rs, relay.rs, app.rs):
 watch events reach a store, the names that may have changed go out on a bounded ring, and each relay
 checks its Project again when it hears the name or lags.
 */
module Revocation {
  import opened Hub

  type Name = string
  datatype Info = Info(owner: string, sandbox: bool)

  datatype Event = Apply(name: Name, info: Info) | Delete(name: Name) | Init | InitApply(name: Name, info: Info) | InitDone

  predicate Revoked(info: Info, owner: string) {
    info.owner != owner || !info.sandbox
  }

  predicate Authorized(store: map<Name, Info>, project: Name, owner: string) {
    project in store && !Revoked(store[project], owner)
  }

  // ----- the store and the tracker -----

  datatype Reflector = Reflector(store: map<Name, Info>, buffer: map<Name, Info>)

  /** What the reflector made of the event before the tracker sees it. */
  function Reflect(r: Reflector, ev: Event): Reflector {
    match ev
    case Apply(n, i) => r.(store := r.store[n := i])
    case Delete(n) => r.(store := r.store - {n})
    case Init => r.(buffer := map[])
    case InitApply(n, i) => r.(buffer := r.buffer[n := i])
    case InitDone => Reflector(r.buffer, map[])
  }

  datatype Tracker = Tracker(known: set<Name>, relist: set<Name>)

  /** The tracker after an event and the names it reports. */
  function Changed(t: Tracker, ev: Event): (Tracker, set<Name>) {
    match ev
    case Apply(n, _) => (t.(known := t.known + {n}), {n})
    case Delete(n) => (t.(known := t.known - {n}), {n})
    case Init => (t.(relist := {}), {})
    case InitApply(n, _) => (t.(relist := t.relist + {n}), {})
    case InitDone => (Tracker(t.relist, {}), t.known + t.relist)
  }

  function Named(ev: Event): set<Name> {
    if ev.Apply? || ev.Delete? || ev.InitApply? then {ev.name} else {}
  }

  class NameTracker {
    var known: set<Name>
    var relist: set<Name>

    constructor ()
      ensures Value() == Tracker({}, {})
    {
      known, relist := {}, {};
    }

    function Value(): Tracker
      reads this
    {
      Tracker(known, relist)
    }

    /** Whatever store the tracker follows, it follows it through the event, and reports every Project
        whose entry changed, also one that a relist dropped; and it reports no name it never heard of. */
    method Change(ev: Event) returns (names: set<Name>)
      modifies this
      ensures (Value(), names) == Changed(old(Value()), ev)
      ensures forall r | Tracks(old(Value()), r) ::
                Tracks(Value(), Reflect(r, ev)) && forall n | !SameIn(r.store, Reflect(r, ev).store, n) :: n in names
      ensures names <= old(known) + old(relist) + Named(ev)
    {
      forall r | Tracks(old(Value()), r)
        ensures Tracks(Changed(old(Value()), ev).0, Reflect(r, ev))
        ensures forall n | !SameIn(r.store, Reflect(r, ev).store, n) :: n in Changed(old(Value()), ev).1
      {
        TrackerMissesNothing(old(Value()), r, ev);
      }
      match ev
      case Apply(n, _) =>
        known := known + {n};
        names := {n};
      case Delete(n) =>
        known := known - {n};
        names := {n};
      case Init =>
        relist := {};
        names := {};
      case InitApply(n, _) =>
        relist := relist + {n};
        names := {};
      case InitDone =>
        var fresh' := relist;
        relist := {};
        names := known + fresh';
        known := fresh';
    }
  }

  predicate Tracks(t: Tracker, r: Reflector) {
    t.known == r.store.Keys && t.relist == r.buffer.Keys
  }

  predicate SameIn(a: map<Name, Info>, b: map<Name, Info>, n: Name) {
    (n in a <==> n in b) && (n in a && n in b ==> a[n] == b[n])
  }

  /** Every Project whose entry an event changes is reported, also one that a relist dropped. */
  lemma TrackerMissesNothing(t: Tracker, r: Reflector, ev: Event)
    requires Tracks(t, r)
    ensures Tracks(Changed(t, ev).0, Reflect(r, ev))
    ensures forall n | !SameIn(r.store, Reflect(r, ev).store, n) :: n in Changed(t, ev).1
  {
  }

  // ----- interleavings -----

  datatype Phase =
    | Arrived                // neither subscribed nor looked up
    | Subscribed             // subscribed, lookup to come
    | Checking               // authorised; about to look the Project up again
    | Waiting                // in `recv`
    | Unheard                // authorised, not subscribed
    | Closed

  datatype Relay = Relay(project: Name, sub: string, owner: string, pos: nat, phase: Phase)

  type RelayId = nat

  /** `outbox` are names the watch task still has to send for the event it is at. */
  datatype System = System(
    kube: Reflector, tracker: Tracker, outbox: seq<Name>, log: seq<Name>, relays: map<RelayId, Relay>)

  const INIT := System(Reflector(map[], map[]), Tracker({}, {}), [], [], map[])

  datatype Label =
    | Watch(ev: Event, names: seq<Name>)
    | Send
    | Arrive(r: RelayId, project: Name, sub: string)
    | Subscribe(r: RelayId)
    | Lookup(r: RelayId)
    | Check(r: RelayId)
    | Recv(r: RelayId)

  /** The code subscribes before the lookup, checks before it first waits, and reports the names known
      before a relist; `cap` is the size of the ring. */
  datatype Policy = Policy(subscribesFirst: bool, checksFirst: bool, reportsKnown: bool, cap: nat)

  function Reported(p: Policy, t: Tracker, ev: Event): set<Name> {
    if ev == InitDone && !p.reportsKnown then t.relist else Changed(t, ev).1
  }

  /** The reflector applies the event, then the tracker says whom to tell, in some order. */
  function DoWatch(p: Policy, s: System, ev: Event, names: seq<Name>): System {
    if s.outbox != [] || (set n | n in names) != Reported(p, s.tracker, ev) then s
    else s.(kube := Reflect(s.kube, ev), tracker := Changed(s.tracker, ev).0, outbox := names)
  }

  predicate AuthorizedAtConnect(store: map<Name, Info>, r: Relay) {
    r.project in store && store[r.project].owner != "" && store[r.project].owner == r.sub && store[r.project].sandbox
  }

  function Ready(p: Policy): Phase {
    if p.checksFirst then Checking else Waiting
  }

  function DoSubscribe(p: Policy, s: System, r: Relay): Relay {
    match r.phase
    case Arrived => if p.subscribesFirst then r.(pos := |s.log|, phase := Subscribed) else r
    case Unheard => r.(pos := |s.log|, phase := Ready(p))
    case _ => r
  }

  function DoLookup(p: Policy, s: System, r: Relay): Relay {
    if r.phase != (if p.subscribesFirst then Subscribed else Arrived) then r
    else if AuthorizedAtConnect(s.kube.store, r)
    then r.(owner := r.sub, phase := if p.subscribesFirst then Ready(p) else Unheard)
    else r.(phase := Closed)
  }

  function DoCheck(s: System, r: Relay): Relay {
    if r.phase != Checking then r
    else r.(phase := if Authorized(s.kube.store, r.project, r.owner) then Waiting else Closed)
  }

  function DoRecv(p: Policy, s: System, r: Relay): Relay {
    if r.phase != Waiting then r
    else
      var (got, next) := Receive(s.log, p.cap, r.pos);
      match got
      case Got(n) => r.(pos := next, phase := if n == r.project then Checking else Waiting)
      case Lagged(_) => r.(pos := next, phase := Checking)
      case Nothing => r
  }

  function Step(p: Policy, s: System, l: Label): System {
    match l
    case Watch(ev, names) => DoWatch(p, s, ev, names)
    case Send => if s.outbox == [] then s else s.(log := s.log + [s.outbox[0]], outbox := s.outbox[1..])
    case Arrive(r, project, sub) =>
      if r in s.relays then s else s.(relays := s.relays[r := Relay(project, sub, "", 0, Arrived)])
    case Subscribe(r) => if r in s.relays then s.(relays := s.relays[r := DoSubscribe(p, s, s.relays[r])]) else s
    case Lookup(r) => if r in s.relays then s.(relays := s.relays[r := DoLookup(p, s, s.relays[r])]) else s
    case Check(r) => if r in s.relays then s.(relays := s.relays[r := DoCheck(s, s.relays[r])]) else s
    case Recv(r) => if r in s.relays then s.(relays := s.relays[r := DoRecv(p, s, s.relays[r])]) else s
  }

  function Run(p: Policy, ls: seq<Label>): System
    decreases |ls|
  {
    if ls == [] then INIT else Step(p, Run(p, ls[..|ls| - 1]), ls[|ls| - 1])
  }

  // ----- what every step keeps -----

  /** The relay's Project is as authorised, or word of a change is on its way to the relay. */
  predicate Informed(s: System, r: Relay)
    requires r.pos <= |s.log|
  {
    Authorized(s.kube.store, r.project, r.owner) || r.project in s.outbox || r.project in s.log[r.pos..]
  }

  predicate RelayOk(p: Policy, s: System, r: Relay) {
    && r.pos <= |s.log|
    && (r.phase == Waiting ==> Informed(s, r))
    && (r.phase == Unheard ==> p.checksFirst)
  }

  predicate Inv(p: Policy, s: System) {
    Tracks(s.tracker, s.kube) && forall r | r in s.relays :: RelayOk(p, s, s.relays[r])
  }

  predicate Sound(p: Policy) {
    (p.subscribesFirst || p.checksFirst) && p.reportsKnown
  }

  lemma WatchKeeps(p: Policy, s: System, ev: Event, names: seq<Name>, r: Relay)
    requires Sound(p) && Tracks(s.tracker, s.kube) && RelayOk(p, s, r)
    ensures RelayOk(p, DoWatch(p, s, ev, names), r)
  {
    TrackerMissesNothing(s.tracker, s.kube, ev);
    if (set n | n in names) == Reported(p, s.tracker, ev) {
      assert forall n | n in Reported(p, s.tracker, ev) :: n in (set m | m in names);
      assert SameIn(s.kube.store, Reflect(s.kube, ev).store, r.project) || r.project in names;
    }
  }

  lemma SendKeeps(p: Policy, s: System, r: Relay)
    requires RelayOk(p, s, r) && s.outbox != []
    ensures RelayOk(p, s.(log := s.log + [s.outbox[0]], outbox := s.outbox[1..]), r)
  {
    var n, log := s.outbox[0], s.log + [s.outbox[0]];
    assert log[r.pos..] == s.log[r.pos..] + [n];
    assert s.outbox == [n] + s.outbox[1..];
  }

  lemma RecvKeeps(p: Policy, s: System, r: Relay)
    requires RelayOk(p, s, r)
    ensures RelayOk(p, s, DoRecv(p, s, r))
  {
    if r.phase == Waiting && r.pos < |s.log| {
      assert s.log[r.pos..] == [s.log[r.pos]] + s.log[r.pos + 1..];
    }
  }

  lemma {:induction false} RunKeeps(p: Policy, ls: seq<Label>)
    requires Sound(p)
    ensures Inv(p, Run(p, ls))
    decreases |ls|
  {
    if ls != [] {
      var s, l := Run(p, ls[..|ls| - 1]), ls[|ls| - 1];
      var t := Step(p, s, l);
      RunKeeps(p, ls[..|ls| - 1]);
      match l
      case Watch(ev, names) =>
        TrackerMissesNothing(s.tracker, s.kube, ev);
        forall r | r in s.relays ensures RelayOk(p, t, s.relays[r]) { WatchKeeps(p, s, ev, names, s.relays[r]); }
      case Send =>
        if s.outbox != [] {
          forall r | r in s.relays ensures RelayOk(p, t, s.relays[r]) { SendKeeps(p, s, s.relays[r]); }
        }
      case Arrive(r, project, sub) =>
      case Subscribe(r) =>
      case Lookup(r) =>
      case Check(r) =>
      case Recv(r) => if r in s.relays { RecvKeeps(p, s, s.relays[r]); }
    }
  }

  // ----- nobody is cut off for nothing -----

  /** A relay that was open is closed by a step only if, at that moment, its Project is gone, without a
      sandbox, or not its user's; a check of a Project that is the user's and has one leaves it open. */
  lemma ClosedOnlyIfRevoked(p: Policy, s: System, l: Label, r: RelayId)
    requires r in s.relays && s.relays[r].phase != Closed && Step(p, s, l).relays[r].phase == Closed
    ensures var relay := s.relays[r];
            var user := if l.Check? then relay.owner else relay.sub;
            !(relay.project in s.kube.store && s.kube.store[relay.project].sandbox
              && s.kube.store[relay.project].owner == user && (l.Lookup? ==> user != ""))
    ensures (l == Check(r) && s.relays[r].phase == Checking) || l == Lookup(r)
  {
  }

  /** A check comes out as the store has it, either way. */
  lemma CheckIff(p: Policy, s: System, r: RelayId)
    requires r in s.relays && s.relays[r].phase == Checking
    ensures var relay := s.relays[r];
            Step(p, s, Check(r)).relays[r].phase
            == if relay.project in s.kube.store && s.kube.store[relay.project].sandbox
                  && s.kube.store[relay.project].owner == relay.owner then Waiting else Closed
  {
  }

  /** So does a lookup. */
  lemma LookupIff(p: Policy, s: System, r: RelayId)
    requires r in s.relays && s.relays[r].phase == (if p.subscribesFirst then Subscribed else Arrived)
    ensures var relay := s.relays[r];
            Step(p, s, Lookup(r)).relays[r].phase != Closed
            <==> relay.project in s.kube.store && s.kube.store[relay.project].sandbox
                 && s.kube.store[relay.project].owner == relay.sub && relay.sub != ""
  {
  }

  // ----- the guarantee -----

  /** The relay is open and has heard all that was sent, and its Project is not among what is about to
      be sent. */
  predicate Drained(s: System, r: RelayId) {
    && r in s.relays && s.relays[r].phase == Waiting && s.relays[r].pos == |s.log|
    && s.relays[r].project !in s.outbox
  }

  ghost predicate NeverStale(p: Policy) {
    forall ls, r | Drained(Run(p, ls), r) ::
      Authorized(Run(p, ls).kube.store, Run(p, ls).relays[r].project, Run(p, ls).relays[r].owner)
  }

  /** An open relay with nothing left to hear is authorised by the current Project, over every sequence
      of applies, deletes and relists and whatever the relay missed. */
  lemma OpenIsAuthorized(p: Policy, ls: seq<Label>, r: RelayId)
    requires Sound(p) && Drained(Run(p, ls), r)
    ensures Authorized(Run(p, ls).kube.store, Run(p, ls).relays[r].project, Run(p, ls).relays[r].owner)
  {
    RunKeeps(p, ls);
  }

  // ----- what it rests on -----

  const READY := Info("a", true)
  const OPEN := Relay("p", "a", "a", 1, Waiting)

  /** Project `p` is applied and its owner's relay opens, in either order of subscribing. */
  const OPENS: seq<Label> :=
    [Watch(Apply("p", READY), ["p"]), Send, Arrive(0, "p", "a"), Subscribe(0), Lookup(0), Subscribe(0), Check(0)]

  /** A relist then drops it. */
  const DROPPED: seq<Label> := OPENS + [Watch(Init, []), Watch(InitDone, [])]

  lemma RunNext(p: Policy, ls: seq<Label>, n: nat, s: System, l: Label, t: System)
    requires n < |ls| && ls[n] == l && Run(p, ls[..n]) == s && Step(p, s, l) == t
    ensures Run(p, ls[..n + 1]) == t
  {
    assert ls[..n + 1][..n] == ls[..n];
  }

  function WithRelay(s: System, r: Relay): System {
    s.(relays := map[0 := r])
  }

  function Applied(log: seq<Name>, outbox: seq<Name>): System {
    System(Reflector(map["p" := READY], map[]), Tracker({"p"}, {}), outbox, log, map[])
  }

  lemma AppliedFirst(p: Policy, ls: seq<Label>)
    requires |ls| > 0 && ls[0] == OPENS[0]
    ensures Run(p, ls[..1]) == Applied([], ["p"])
  {
    var names := ["p"];
    assert (set n | n in names) == {"p"};
    assert Step(p, INIT, ls[0]).tracker == Tracker({"p"}, {});
    RunNext(p, ls, 0, INIT, ls[0], Applied([], ["p"]));
  }

  /** What a step of relay 0 makes of it. */
  function RelayAfter(p: Policy, s: System, l: Label, r: Relay): Relay {
    match l
    case Subscribe(_) => DoSubscribe(p, s, r)
    case Lookup(_) => DoLookup(p, s, r)
    case Check(_) => DoCheck(s, r)
    case _ => r
  }

  lemma RelayNext(p: Policy, ls: seq<Label>, n: nat, s: System, r: Relay, l: Label, r': Relay)
    requires n < |ls| && Run(p, ls[..n]) == WithRelay(s, r) && ls[n] == l
    requires l == Subscribe(0) || l == Lookup(0) || l == Check(0)
    requires RelayAfter(p, s, l, r) == r'
    ensures Run(p, ls[..n + 1]) == WithRelay(s, r')
  {
    var t := WithRelay(s, r);
    assert t.relays[0] == r && map[0 := r][0 := r'] == map[0 := r'];
    RunNext(p, ls, n, t, l, WithRelay(s, r'));
  }

  /** Up to the arrival of the relay, the runs are the same. */
  lemma Arrives(p: Policy, ls: seq<Label>)
    requires |ls| > 3 && ls[..3] == OPENS[..3]
    ensures Run(p, ls[..3]) == WithRelay(Applied(["p"], []), Relay("p", "a", "", 0, Arrived))
  {
    assert ls[0] == ls[..3][0] && ls[1] == ls[..3][1] && ls[2] == ls[..3][2];
    AppliedFirst(p, ls);
    RunNext(p, ls, 1, Applied([], ["p"]), Send, Applied(["p"], []));
    RunNext(p, ls, 2, Applied(["p"], []), Arrive(0, "p", "a"),
            WithRelay(Applied(["p"], []), Relay("p", "a", "", 0, Arrived)));
  }

  /** After `Subscribe` and `Lookup`, in the policy's terms. */
  function LookedUp(p: Policy): Relay {
    if p.subscribesFirst then Relay("p", "a", "a", 1, Ready(p)) else Relay("p", "a", "a", 0, Unheard)
  }

  lemma LooksUp(p: Policy, ls: seq<Label>)
    requires |ls| > 5 && ls[..3] == OPENS[..3] && ls[3] == Subscribe(0) && ls[4] == Lookup(0)
    ensures Run(p, ls[..5]) == WithRelay(Applied(["p"], []), LookedUp(p))
  {
    var s := Applied(["p"], []);
    Arrives(p, ls);
    var early, late := Relay("p", "a", "", 1, Subscribed), Relay("p", "a", "", 0, Arrived);
    var r1 := if p.subscribesFirst then early else late;
    RelayNext(p, ls, 3, s, late, Subscribe(0), r1);
    RelayNext(p, ls, 4, s, r1, Lookup(0), LookedUp(p));
  }

  lemma Opens(p: Policy, ls: seq<Label>)
    requires OPENS <= ls
    ensures Run(p, ls[..7]) == WithRelay(Applied(["p"], []), OPEN)
  {
    var s := Applied(["p"], []);
    assert ls[..7] == OPENS && ls[..3] == OPENS[..3] && forall i | 0 <= i < 7 :: ls[i] == ls[..7][i];
    LooksUp(p, ls);
    RelayNext(p, ls, 5, s, LookedUp(p), Subscribe(0), Relay("p", "a", "a", 1, Ready(p)));
    RelayNext(p, ls, 6, s, Relay("p", "a", "a", 1, Ready(p)), Check(0), OPEN);
  }

  /** A tracker that reported only the new listing would leave the relay of a dropped Project open. */
  lemma RelistDrops(p: Policy)
    requires !p.reportsKnown && p.cap > 0
    ensures Drained(Run(p, DROPPED), 0) && "p" !in Run(p, DROPPED).kube.store
    ensures Run(p, DROPPED).relays[0] == OPEN
  {
    var s := WithRelay(Applied(["p"], []), OPEN);
    Opens(p, DROPPED);
    RunNext(p, DROPPED, 7, s, Watch(Init, []), s);
    var t := s.(kube := Reflector(map[], map[]), tracker := Tracker({}, {}));
    RunNext(p, DROPPED, 8, s, Watch(InitDone, []), t);
    assert DROPPED[..9] == DROPPED;
  }

  const DELETED: seq<Label> :=
    [Watch(Apply("p", READY), ["p"]), Send, Arrive(0, "p", "a"), Lookup(0), Watch(Delete("p"), ["p"]), Send, Subscribe(0)]

  /** Subscribing after the lookup, without another check, misses a change in between. */
  lemma LateIsDeaf(p: Policy)
    requires !p.subscribesFirst && !p.checksFirst
    ensures Drained(Run(p, DELETED), 0) && "p" !in Run(p, DELETED).kube.store && Run(p, DELETED).relays[0].project == "p"
  {
    var s := Applied(["p"], []);
    var r1 := Relay("p", "a", "a", 0, Unheard);
    Arrives(p, DELETED);
    RelayNext(p, DELETED, 3, s, Relay("p", "a", "", 0, Arrived), Lookup(0), r1);
    LateSubscribe(p, WithRelay(s, r1), r1);
  }

  lemma LateSubscribe(p: Policy, s: System, r1: Relay)
    requires !p.checksFirst && Run(p, DELETED[..4]) == s && s == WithRelay(Applied(["p"], []), r1)
    requires r1 == Relay("p", "a", "a", 0, Unheard)
    ensures Drained(Run(p, DELETED), 0) && "p" !in Run(p, DELETED).kube.store && Run(p, DELETED).relays[0].project == "p"
  {
    var names := ["p"];
    assert (set n | n in names) == {"p"};
    var t := s.(kube := Reflector(map[], map[]), tracker := Tracker({}, {}), outbox := ["p"]);
    assert s.kube.store - {"p"} == map[] && s.tracker.known - {"p"} == {};
    RunNext(p, DELETED, 4, s, Watch(Delete("p"), ["p"]), t);
    var u := t.(outbox := [], log := ["p", "p"]);
    RunNext(p, DELETED, 5, t, Send, u);
    RunNext(p, DELETED, 6, u, Subscribe(0), WithRelay(u, r1.(pos := 2, phase := Waiting)));
    assert DELETED[..7] == DELETED;
  }

  /** No relay stays open on a stale answer exactly if it subscribes before the lookup or checks once
      more before it waits (the code does both), and a relist also reports the names known before. */
  lemma NeverStaleIff(p: Policy)
    requires p.cap > 0
    ensures NeverStale(p) <==> Sound(p)
  {
    if Sound(p) {
      forall ls, r | Drained(Run(p, ls), r)
        ensures Authorized(Run(p, ls).kube.store, Run(p, ls).relays[r].project, Run(p, ls).relays[r].owner)
      {
        OpenIsAuthorized(p, ls, r);
      }
    } else if !p.reportsKnown {
      RelistDrops(p);
    } else {
      LateIsDeaf(p);
    }
  }
}
