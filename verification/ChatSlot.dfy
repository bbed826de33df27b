/**
 The guard's slot between its two queues (sandbox-proxy/src/relay.rs): frames to the sandbox and
 frames from it are FIFO, and the slot follows what the proxy has seen, not what the sandbox has
 done. The question is how many chats of one socket the sandbox can have.
 */
module ChatSlot {
  import opened Wrappers
  import opened Guard

  datatype Up = Opens(channel: nat, acp: bool) | Closes(channel: nat)
  datatype Down = Closed(channel: nat) | OpenError(channel: nat)

  /** How the sandbox treats the two delicate cases: whether it takes an `open` naming an id it was
      offered before, and whether it drops a CLOSE that comes before it has decided on the open. */
  datatype Policy = Policy(reuses: bool, dropsEarlyClose: bool)

  /** `pending` and `live` are chats, `ptys` terminals, `offered` every id an `open` has named. */
  datatype Sandbox = Sandbox(offered: set<nat>, pending: set<nat>, live: set<nat>, ptys: set<nat>)

  datatype System = System(slot: Option<nat>, injecting: Option<nat>, up: seq<Up>, down: seq<Down>, box: Sandbox)

  const INIT := System(None, None, [], [], Sandbox({}, {}, {}, {}))

  datatype Label =
    | Browser(f: Frame)
    | Injected(ok: bool)                       // `acp_open` got the token, or answered an error
    | SandboxReads(refusePty: bool)
    | Decides(channel: nat, accept: bool)
    | Ends(channel: nat)                       // the sandbox closes a channel
    | ProxyReads

  function Chats(b: Sandbox): set<nat> {
    b.pending + b.live
  }

  /** What the up direction does with a browser frame; only opens and closes matter here. */
  function DoBrowser(s: System, f: Frame): System {
    if s.injecting.Some? then s
    else if Admitted(true, s.slot, f) then s.(slot := Some(f.channel), injecting := Some(f.channel))
    else if f.Open? && Passes(f, s.slot) then s.(up := s.up + [Opens(f.channel, f.kind == Acp)])
    else if f.Close? then s.(slot := Freed(s.slot, f.channel), up := s.up + [Closes(f.channel)])
    else s
  }

  function DoInjected(s: System, ok: bool): System {
    if s.injecting.None? then s
    else if ok then s.(injecting := None, up := s.up + [Opens(s.injecting.value, true)])
    else s.(injecting := None, slot := Freed(s.slot, s.injecting.value))
  }

  predicate InUse(b: Sandbox, ch: nat) {
    ch in b.pending || ch in b.live || ch in b.ptys
  }

  function ReadOpen(p: Policy, s: System, ch: nat, acp: bool, refusePty: bool): System {
    var b := s.box.(offered := s.box.offered + {ch});
    if InUse(s.box, ch) || (ch in s.box.offered && !p.reuses) || (!acp && refusePty) then
      s.(box := b, down := s.down + [OpenError(ch)])
    else if acp then s.(box := b.(pending := b.pending + {ch}))
    else s.(box := b.(ptys := b.ptys + {ch}))
  }

  function ReadClose(p: Policy, s: System, ch: nat): System {
    if ch in s.box.live || ch in s.box.ptys || (ch in s.box.pending && !p.dropsEarlyClose) then
      s.(box := s.box.(live := s.box.live - {ch}, ptys := s.box.ptys - {ch}, pending := s.box.pending - {ch}),
         down := s.down + [Closed(ch)])
    else s
  }

  function DoSandboxReads(p: Policy, s: System, refusePty: bool): System {
    if s.up == [] then s
    else
      var s' := s.(up := s.up[1..]);
      match s.up[0]
      case Opens(ch, acp) => ReadOpen(p, s', ch, acp, refusePty)
      case Closes(ch) => ReadClose(p, s', ch)
  }

  function DoDecides(s: System, ch: nat, accept: bool): System {
    if ch !in s.box.pending then s
    else if accept then s.(box := s.box.(pending := s.box.pending - {ch}, live := s.box.live + {ch}))
    else s.(box := s.box.(pending := s.box.pending - {ch}), down := s.down + [OpenError(ch)])
  }

  function DoEnds(s: System, ch: nat): System {
    if ch !in s.box.live && ch !in s.box.ptys then s
    else s.(box := s.box.(live := s.box.live - {ch}, ptys := s.box.ptys - {ch}), down := s.down + [Closed(ch)])
  }

  /** `observe_sandbox_message`. */
  function DoProxyReads(s: System): System {
    if s.down == [] then s
    else s.(slot := Freed(s.slot, s.down[0].channel), down := s.down[1..])
  }

  function Step(p: Policy, s: System, l: Label): System {
    match l
    case Browser(f) => DoBrowser(s, f)
    case Injected(ok) => DoInjected(s, ok)
    case SandboxReads(refusePty) => DoSandboxReads(p, s, refusePty)
    case Decides(ch, accept) => DoDecides(s, ch, accept)
    case Ends(ch) => DoEnds(s, ch)
    case ProxyReads => DoProxyReads(s)
  }

  function Run(p: Policy, ls: seq<Label>): System
    decreases |ls|
  {
    if ls == [] then INIT else Step(p, Run(p, ls[..|ls| - 1]), ls[|ls| - 1])
  }

  // ----- the worst the queued frames can do -----

  /** Ids offered and chats had, if the sandbox takes every first offer of a chat. */
  datatype Worst = Worst(offered: set<nat>, chats: set<nat>)

  function Reads(w: Worst, f: Up): Worst {
    match f
    case Opens(ch, acp) =>
      if ch in w.offered then w
      else Worst(w.offered + {ch}, if acp then w.chats + {ch} else w.chats)
    case Closes(ch) => w.(chats := w.chats - {ch})
  }

  function ReadsAll(w: Worst, u: seq<Up>): Worst
    decreases |u|
  {
    if u == [] then w else ReadsAll(Reads(w, u[0]), u[1..])
  }

  /** At no point more than one chat, and no open of an id that is a chat at that point. */
  predicate Safe(w: Worst, u: seq<Up>)
    decreases |u|
  {
    && |w.chats| <= 1
    && (u != [] ==> (u[0].Opens? ==> u[0].channel !in w.chats) && Safe(Reads(w, u[0]), u[1..]))
  }

  function Now(s: System): Worst {
    Worst(s.box.offered, Chats(s.box))
  }

  function SlotSet(slot: Option<nat>): set<nat> {
    if slot.Some? then {slot.value} else {}
  }

  lemma {:induction false} ReadsOneMore(w: Worst, u: seq<Up>, f: Up)
    ensures ReadsAll(w, u + [f]) == Reads(ReadsAll(w, u), f)
    ensures (Safe(w, u) && (f.Opens? ==> f.channel !in ReadsAll(w, u).chats) && |Reads(ReadsAll(w, u), f).chats| <= 1)
            ==> Safe(w, u + [f])
    decreases |u|
  {
    if u == [] {
      assert (u + [f])[1..] == [];
    } else {
      ReadsOneMore(Reads(w, u[0]), u[1..], f);
      assert (u + [f])[1..] == u[1..] + [f];
    }
  }

  /** Fewer chats to begin with: fewer at every point. */
  lemma {:induction false} FewerChats(w: Worst, v: Worst, u: seq<Up>)
    requires v.offered == w.offered && v.chats <= w.chats
    ensures ReadsAll(v, u).offered == ReadsAll(w, u).offered && ReadsAll(v, u).chats <= ReadsAll(w, u).chats
    ensures Safe(w, u) ==> Safe(v, u)
    decreases |u|
  {
    SmallerSet(v.chats, w.chats);
    if u != [] {
      FewerChats(Reads(w, u[0]), Reads(v, u[0]), u[1..]);
    }
  }

  /** An id offered before and not a chat now never becomes one. */
  lemma {:induction false} DeadStaysDead(w: Worst, u: seq<Up>, ch: nat)
    requires ch in w.offered && ch !in w.chats
    ensures ch in ReadsAll(w, u).offered && ch !in ReadsAll(w, u).chats
    decreases |u|
  {
    if u != [] {
      DeadStaysDead(Reads(w, u[0]), u[1..], ch);
    }
  }

  // ----- the strict sandbox -----

  const STRICT := Policy(false, false)

  /** The slot is held for something: an open on its way, a chat, or a frame that will free it. */
  predicate HeldFor(s: System, ch: nat) {
    || s.injecting == Some(ch) || Opens(ch, true) in s.up || ch in Chats(s.box)
    || Closed(ch) in s.down || OpenError(ch) in s.down
  }

  predicate BoxOk(b: Sandbox) {
    Chats(b) <= b.offered && b.ptys <= b.offered && b.ptys !! Chats(b) && b.pending !! b.live
  }

  /** All that is queued towards the sandbox leaves at most the chat the slot names. */
  predicate QueueOk(s: System) {
    var w := ReadsAll(Now(s), s.up);
    && Safe(Now(s), s.up)
    && w.chats <= SlotSet(s.slot)
    && (s.injecting.Some? ==>
          && w.chats == {} && (s.slot.None? || s.slot == s.injecting)
          && (s.slot.None? ==> s.injecting.value in w.offered))
  }

  ghost predicate Inv(s: System) {
    && BoxOk(s.box) && QueueOk(s)
    && DownOk(s.down, s.box)
    && (s.slot.Some? ==> HeldFor(s, s.slot.value))
  }

  lemma PushKeeps(s: System, f: Up, slot: Option<nat>)
    requires Inv(s) && s.injecting.None?
    requires f.Opens? ==> !f.acp && slot == s.slot && slot != Some(f.channel)
    requires f.Closes? ==> slot == Freed(s.slot, f.channel)
    ensures Inv(s.(slot := slot, up := s.up + [f]))
  {
    var w := ReadsAll(Now(s), s.up);
    ReadsOneMore(Now(s), s.up, f);
    SmallerSet(Reads(w, f).chats, SlotSet(s.slot));
  }

  lemma BrowserKeeps(s: System, f: Frame)
    requires Inv(s)
    ensures Inv(DoBrowser(s, f))
  {
    if s.injecting.None? && !Admitted(true, s.slot, f) {
      if f.Open? && Passes(f, s.slot) {
        PushKeeps(s, Opens(f.channel, f.kind == Acp), s.slot);
      } else if f.Close? {
        PushKeeps(s, Closes(f.channel), Freed(s.slot, f.channel));
      }
    }
  }

  /** The rewritten open goes up; if its slot was freed meanwhile, the id is a used one. */
  lemma InjectedKeeps(s: System, ok: bool)
    requires Inv(s)
    ensures Inv(DoInjected(s, ok))
  {
    if s.injecting.Some? && ok {
      var f := Opens(s.injecting.value, true);
      var w := ReadsAll(Now(s), s.up);
      ReadsOneMore(Now(s), s.up, f);
      SmallerSet(Reads(w, f).chats, SlotSet(s.slot));
    }
  }

  predicate DownOk(down: seq<Down>, b: Sandbox) {
    forall f | f in down :: f.channel in b.offered && f.channel !in Chats(b)
  }

  /** The frames towards the proxy after one read: `extra` was added. */
  predicate Added(s: System, s': System, ch: nat, extra: seq<Down>) {
    && s'.down == s.down + extra && |extra| <= 1
    && (forall f | f in extra :: f.channel == ch)
    && s'.up == s.up && s'.slot == s.slot && s'.injecting == s.injecting
  }

  /** Reading an open is what `Reads` says; it becomes a chat or is refused. */
  lemma ReadOpenIs(s: System, ch: nat, acp: bool, refusePty: bool) returns (extra: seq<Down>)
    requires BoxOk(s.box) && ch !in Chats(s.box)
    ensures var s' := ReadOpen(STRICT, s, ch, acp, refusePty);
            && Now(s') == Reads(Now(s), Opens(ch, acp)) && BoxOk(s'.box) && Added(s, s', ch, extra)
            && Chats(s.box) <= Chats(s'.box)
            && (extra != [] ==> ch in s'.box.offered && ch !in Chats(s'.box))
            && (acp ==> ch in Chats(s'.box) || extra == [OpenError(ch)])
  {
    extra := if ch in s.box.ptys || ch in s.box.offered || (!acp && refusePty) then [OpenError(ch)] else [];
  }

  /** Reading a CLOSE is what `Reads` says; a chat it ends is closed from this side too. */
  lemma ReadCloseIs(s: System, ch: nat) returns (extra: seq<Down>)
    requires BoxOk(s.box)
    ensures var s' := ReadClose(STRICT, s, ch);
            && Now(s') == Reads(Now(s), Closes(ch)) && BoxOk(s'.box) && Added(s, s', ch, extra)
            && Chats(s.box) - {ch} <= Chats(s'.box)
            && (extra != [] ==> ch in s'.box.offered && ch !in Chats(s'.box))
            && (ch in Chats(s.box) ==> extra == [Closed(ch)])
  {
    var s' := ReadClose(STRICT, s, ch);
    assert Chats(s'.box) == Chats(s.box) - {ch};
    extra := if InUse(s.box, ch) then [Closed(ch)] else [];
  }

  lemma AddedIsFine(s: System, s': System, ch: nat, extra: seq<Down>)
    requires DownOk(s.down, s.box) && Added(s, s', ch, extra)
    requires s.box.offered <= s'.box.offered && Chats(s'.box) <= Chats(s.box) + ({ch} - s.box.offered)
    requires extra != [] ==> ch in s'.box.offered && ch !in Chats(s'.box)
    ensures DownOk(s'.down, s'.box)
  {
  }

  /** Reading one frame keeps the slot held for something. */
  lemma HeldStays(s: System, s': System, head: Up, c: nat, extra: seq<Down>, ch: nat)
    requires HeldFor(s.(up := [head] + s.up), ch) && Added(s, s', c, extra)
    requires Chats(s.box) - {c} <= Chats(s'.box)
    requires c == ch && ch in Chats(s.box) && ch !in Chats(s'.box) ==> extra == [Closed(ch)]
    requires head == Opens(ch, true) ==> ch in Chats(s'.box) || extra == [OpenError(ch)]
    ensures HeldFor(s', ch)
  {
  }

  lemma ReadsHead(s: System, refusePty: bool)
    requires Inv(s) && s.up != []
    ensures var s' := DoSandboxReads(STRICT, s, refusePty);
            && Now(s') == Reads(Now(s), s.up[0]) && BoxOk(s'.box) && DownOk(s'.down, s'.box)
            && s'.up == s.up[1..] && s'.slot == s.slot && s'.injecting == s.injecting
            && (s.slot.Some? ==> HeldFor(s', s.slot.value))
  {
    var s1, s' := s.(up := s.up[1..]), DoSandboxReads(STRICT, s, refusePty);
    assert [s.up[0]] + s.up[1..] == s.up;
    var extra: seq<Down>;
    match s.up[0] {
      case Opens(ch, acp) => extra := ReadOpenIs(s1, ch, acp, refusePty);
      case Closes(ch) => extra := ReadCloseIs(s1, ch);
    }
    AddedIsFine(s1, s', s.up[0].channel, extra);
    if s.slot.Some? {
      HeldStays(s1, s', s.up[0], s.up[0].channel, extra, s.slot.value);
    }
  }

  /** What was safe to read is safe once its head is read. */
  lemma PopKeepsQueue(s: System, s': System)
    requires QueueOk(s) && s.up != [] && s'.up == s.up[1..] && Now(s') == Reads(Now(s), s.up[0])
    requires s'.slot == s.slot && s'.injecting == s.injecting
    ensures QueueOk(s')
  {
  }

  lemma SandboxReadsKeeps(s: System, refusePty: bool)
    requires Inv(s)
    ensures Inv(DoSandboxReads(STRICT, s, refusePty))
  {
    if s.up != [] {
      ReadsHead(s, refusePty);
      PopKeepsQueue(s, DoSandboxReads(STRICT, s, refusePty));
    }
  }

  lemma DecidesKeeps(s: System, ch: nat, accept: bool)
    requires Inv(s)
    ensures Inv(DoDecides(s, ch, accept))
  {
    var s' := DoDecides(s, ch, accept);
    if ch in s.box.pending {
      FewerChats(Now(s), Now(s'), s.up);
      assert accept ==> Chats(s'.box) == Chats(s.box);
      assert forall f | f in s.down :: f in s'.down;
      if !accept {
        AddedIsFine(s, s', ch, [OpenError(ch)]);
        assert s'.down[|s.down|] == OpenError(ch);
      }
    }
  }

  lemma EndsKeeps(s: System, ch: nat)
    requires Inv(s)
    ensures Inv(DoEnds(s, ch))
  {
    var s' := DoEnds(s, ch);
    if ch in s.box.live || ch in s.box.ptys {
      FewerChats(Now(s), Now(s'), s.up);
      assert forall f | f in s.down :: f in s'.down;
      assert s'.down[|s.down|] == Closed(ch);
    }
  }

  /** A stale frame frees the slot only for an id that is dead at the sandbox. */
  lemma ProxyReadsKeeps(s: System)
    requires Inv(s)
    ensures Inv(DoProxyReads(s))
  {
    if s.down != [] {
      var ch := s.down[0].channel;
      assert s.down[0] in s.down;
      DeadStaysDead(Now(s), s.up, ch);
      assert forall f | f in s.down :: f == s.down[0] || f in s.down[1..];
    }
  }

  lemma {:induction false} RunKeeps(ls: seq<Label>)
    ensures Inv(Run(STRICT, ls))
    decreases |ls|
  {
    if ls != [] {
      var s := Run(STRICT, ls[..|ls| - 1]);
      RunKeeps(ls[..|ls| - 1]);
      match ls[|ls| - 1]
      case Browser(f) => BrowserKeeps(s, f);
      case Injected(ok) => InjectedKeeps(s, ok);
      case SandboxReads(refusePty) => SandboxReadsKeeps(s, refusePty);
      case Decides(ch, accept) => DecidesKeeps(s, ch, accept);
      case Ends(ch) => EndsKeeps(s, ch);
      case ProxyReads => ProxyReadsKeeps(s);
    }
  }

  /** With a strict sandbox a socket never has two chats, deciding or live, whatever stale frames
      free the proxy's slot. */
  lemma AtMostOneChat(ls: seq<Label>)
    ensures |Chats(Run(STRICT, ls).box)| <= 1
  {
    RunKeeps(ls);
  }

  /** Once both queues are drained, the slot is exactly the sandbox's chat. */
  lemma DrainedSlotIsTheChat(ls: seq<Label>)
    requires var s := Run(STRICT, ls); s.up == [] && s.down == [] && s.injecting == None
    ensures SlotSet(Run(STRICT, ls).slot) == Chats(Run(STRICT, ls).box)
  {
    RunKeeps(ls);
  }

  // ----- why the sandbox must be strict -----

  function OpenChat(ch: nat): Frame {
    Open(ch, Acp, None, None, None, None)
  }

  /** A refused id is used again, and the old refusal frees the slot of the new open. */
  const REUSE := [
    Browser(OpenChat(1)), Injected(true), SandboxReads(false), Decides(1, false),
    Browser(Close(1)), Browser(OpenChat(1)), Injected(true), ProxyReads,
    Browser(OpenChat(2)), Injected(true),
    SandboxReads(false), SandboxReads(false), SandboxReads(false), Decides(1, true), Decides(2, true)]

  /** A CLOSE overtakes the decision on its open. */
  const EARLY_CLOSE := [
    Browser(OpenChat(1)), Injected(true), SandboxReads(false), Browser(Close(1)), SandboxReads(false),
    Browser(OpenChat(2)), Injected(true), SandboxReads(false), Decides(1, true), Decides(2, true)]

  lemma Next(p: Policy, ls: seq<Label>, n: nat, s: System, s': System)
    requires n < |ls| && Run(p, ls[..n]) == s && Step(p, s, ls[n]) == s'
    ensures Run(p, ls[..n + 1]) == s'
  {
    assert ls[..n + 1][..n] == ls[..n];
  }

  function Mid(slot: nat, up: seq<Up>, down: seq<Down>, box: Sandbox): System {
    System(if slot == 0 then None else Some(slot), None, up, down, box)
  }

  /** Both runs begin with an open the sandbox has yet to decide on. */
  lemma FirstOpen(p: Policy, ls: seq<Label>)
    requires |ls| >= 3 && ls[0] == Browser(OpenChat(1)) && ls[1] == Injected(true) && ls[2] == SandboxReads(false)
    ensures Run(p, ls[..3]) == Mid(1, [], [], Sandbox({1}, {1}, {}, {}))
  {
    var s1 := INIT.(slot := Some(1), injecting := Some(1));
    Next(p, ls, 0, INIT, s1);
    Next(p, ls, 1, s1, Mid(1, [Opens(1, true)], [], INIT.box));
    Next(p, ls, 2, Mid(1, [Opens(1, true)], [], INIT.box), Mid(1, [], [], Sandbox({1}, {1}, {}, {})));
  }

  lemma EarlyCloseFreesTheSlot(p: Policy)
    requires p.dropsEarlyClose
    ensures Run(p, EARLY_CLOSE[..5]) == Mid(0, [], [], Sandbox({1}, {1}, {}, {}))
  {
    var ls, b := EARLY_CLOSE, Sandbox({1}, {1}, {}, {});
    FirstOpen(p, ls);
    Next(p, ls, 3, Mid(1, [], [], b), Mid(0, [Closes(1)], [], b));
    Next(p, ls, 4, Mid(0, [Closes(1)], [], b), Mid(0, [], [], b));
  }

  lemma EarlyCloseOpensASecond(p: Policy)
    requires p.dropsEarlyClose
    ensures Run(p, EARLY_CLOSE[..8]) == Mid(2, [], [], Sandbox({1, 2}, {1, 2}, {}, {}))
  {
    var ls, b := EARLY_CLOSE, Sandbox({1}, {1}, {}, {});
    EarlyCloseFreesTheSlot(p);
    var s6 := System(Some(2), Some(2), [], [], b);
    Next(p, ls, 5, Mid(0, [], [], b), s6);
    Next(p, ls, 6, s6, Mid(2, [Opens(2, true)], [], b));
    Next(p, ls, 7, Mid(2, [Opens(2, true)], [], b), Mid(2, [], [], Sandbox({1, 2}, {1, 2}, {}, {})));
  }

  /** A sandbox that has two chats to decide on takes both. */
  lemma BothAccepted(p: Policy, ls: seq<Label>, n: nat)
    requires n + 2 == |ls| && ls[n] == Decides(1, true) && ls[n + 1] == Decides(2, true)
    requires Run(p, ls[..n]) == Mid(2, [], [], Sandbox({1, 2}, {1, 2}, {}, {}))
    ensures Run(p, ls).box.live == {1, 2}
  {
    Next(p, ls, n, Mid(2, [], [], Sandbox({1, 2}, {1, 2}, {}, {})), Mid(2, [], [], Sandbox({1, 2}, {2}, {1}, {})));
    Next(p, ls, n + 1, Mid(2, [], [], Sandbox({1, 2}, {2}, {1}, {})), Mid(2, [], [], Sandbox({1, 2}, {}, {1, 2}, {})));
    assert ls[..n + 2] == ls;
  }

  lemma EarlyCloseMakesTwo(p: Policy)
    requires p.dropsEarlyClose
    ensures Run(p, EARLY_CLOSE).box.live == {1, 2}
  {
    EarlyCloseOpensASecond(p);
    BothAccepted(p, EARLY_CLOSE, 8);
  }

  lemma ReuseIsRefusedFirst(p: Policy)
    ensures Run(p, REUSE[..4]) == Mid(1, [], [OpenError(1)], Sandbox({1}, {}, {}, {}))
  {
    FirstOpen(p, REUSE);
    Next(p, REUSE, 3, Mid(1, [], [], Sandbox({1}, {1}, {}, {})), Mid(1, [], [OpenError(1)], Sandbox({1}, {}, {}, {})));
  }

  lemma ReuseFreesTheSlot(p: Policy)
    ensures Run(p, REUSE[..8]) == Mid(0, [Closes(1), Opens(1, true)], [], Sandbox({1}, {}, {}, {}))
  {
    var ls, b := REUSE, Sandbox({1}, {}, {}, {});
    ReuseIsRefusedFirst(p);
    var s6 := System(Some(1), Some(1), [Closes(1)], [OpenError(1)], b);
    Next(p, ls, 4, Mid(1, [], [OpenError(1)], b), Mid(0, [Closes(1)], [OpenError(1)], b));
    Next(p, ls, 5, Mid(0, [Closes(1)], [OpenError(1)], b), s6);
    Next(p, ls, 6, s6, Mid(1, [Closes(1), Opens(1, true)], [OpenError(1)], b));
    Next(p, ls, 7, Mid(1, [Closes(1), Opens(1, true)], [OpenError(1)], b), Mid(0, [Closes(1), Opens(1, true)], [], b));
  }

  lemma ReuseOpensASecond(p: Policy)
    ensures Run(p, REUSE[..11]) == Mid(2, [Opens(1, true), Opens(2, true)], [], Sandbox({1}, {}, {}, {}))
  {
    var ls, b := REUSE, Sandbox({1}, {}, {}, {});
    ReuseFreesTheSlot(p);
    var s9 := System(Some(2), Some(2), [Closes(1), Opens(1, true)], [], b);
    Next(p, ls, 8, Mid(0, [Closes(1), Opens(1, true)], [], b), s9);
    Next(p, ls, 9, s9, Mid(2, [Closes(1), Opens(1, true), Opens(2, true)], [], b));
    Next(p, ls, 10, Mid(2, [Closes(1), Opens(1, true), Opens(2, true)], [], b), Mid(2, [Opens(1, true), Opens(2, true)], [], b));
  }

  lemma ReuseMakesTwo(p: Policy)
    requires p.reuses
    ensures Run(p, REUSE).box.live == {1, 2}
  {
    var ls := REUSE;
    ReuseOpensASecond(p);
    var s12 := Mid(2, [Opens(2, true)], [], Sandbox({1}, {1}, {}, {}));
    Next(p, ls, 11, Mid(2, [Opens(1, true), Opens(2, true)], [], Sandbox({1}, {}, {}, {})), s12);
    Next(p, ls, 12, s12, Mid(2, [], [], Sandbox({1, 2}, {1, 2}, {}, {})));
    BothAccepted(p, ls, 13);
  }

  ghost predicate NeverTwoLive(p: Policy) {
    forall ls :: |Run(p, ls).box.live| <= 1
  }

  /** The guard alone keeps a socket at one live chat exactly when the sandbox takes no id twice,
      not even one it refused, and honours a CLOSE that comes before its decision. */
  lemma OneChatIffStrict(p: Policy)
    ensures NeverTwoLive(p) <==> p == STRICT
  {
    if p.reuses {
      ReuseMakesTwo(p);
      assert |Run(p, REUSE).box.live| == 2;
    } else if p.dropsEarlyClose {
      EarlyCloseMakesTwo(p);
      assert |Run(p, EARLY_CLOSE).box.live| == 2;
    } else {
      forall ls
        ensures |Run(p, ls).box.live| <= 1
      {
        AtMostOneChat(ls);
        SmallerSet(Run(p, ls).box.live, Chats(Run(p, ls).box));
      }
    }
  }
}
