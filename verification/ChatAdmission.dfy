/**
 Admission of chats in the sandbox (sandbox-container/src/chat.rs): `open` registers, `make_room`
 supersedes older chats and waits for them, a chat that ended leaves the registry.
 */
module ChatAdmission {
  import opened Wrappers

  datatype Live = Live(conn: nat, mux: nat, chatId: Option<string>, closing: bool, stop: bool)

  /** The chats other than `conn`, in registration order. */
  function Others(live: seq<Live>, conn: nat): seq<Live> {
    if live == [] then []
    else if live[0].conn == conn then Others(live[1..], conn)
    else [live[0]] + Others(live[1..], conn)
  }

  function Excess(others: nat, max: nat): nat {
    if others + 1 >= max then others + 1 - max else 0
  }

  /** Whether the chat at place `i` of the others is stopped to make room for `conn`. */
  predicate Stopped(others: seq<Live>, max: nat, conn: nat, chatId: string, i: nat)
    requires i < |others|
  {
    others[i].conn < conn && (i < Excess(|others|, max) || others[i].chatId == Some(chatId))
  }

  function Superseded(live: seq<Live>, max: nat, conn: nat, chatId: string): set<nat> {
    var others := Others(live, conn);
    set i | 0 <= i < |others| && Stopped(others, max, conn, chatId, i) :: others[i].conn
  }

  function Conns(live: seq<Live>): set<nat> {
    set i | 0 <= i < |live| :: live[i].conn
  }

  /** The live chats with the stop flag set on those in `stops`. */
  function StopThose(live: seq<Live>, stops: set<nat>): seq<Live> {
    seq(|live|, i requires 0 <= i < |live| => if live[i].conn in stops then live[i].(stop := true) else live[i])
  }

  predicate Busy(live: seq<Live>, mux: nat) {
    exists i :: 0 <= i < |live| && live[i].mux == mux && !live[i].closing
  }

  predicate Distinct(live: seq<Live>) {
    forall i, j | 0 <= i < j < |live| :: live[i].conn != live[j].conn
  }

  /** The places from `p` on of the chats other than `conn`. */
  function From(live: seq<Live>, conn: nat, p: nat): set<nat> {
    set i: nat | p <= i < |live| && live[i].conn != conn
  }

  datatype Opened = Disabled | ShuttingDown | ChatLimit | Registered

  lemma {:induction false} OthersAppend(a: seq<Live>, l: Live, conn: nat)
    ensures Others(a + [l], conn) == if l.conn == conn then Others(a, conn) else Others(a, conn) + [l]
  {
    if a == [] {
      assert (a + [l])[1..] == [];
    } else {
      OthersAppend(a[1..], l, conn);
      assert (a + [l])[1..] == a[1..] + [l];
    }
  }

  class ChatManager {
    const maxChats: nat
    var live: seq<Live>
    var shuttingDown: bool

    constructor (max: nat)
      ensures maxChats == max && live == [] && !shuttingDown
    {
      maxChats, live, shuttingDown := max, [], false;
    }

    /** The registration part of `open`; `conn` was drawn from the counter before. */
    method Open(conn: nat, mux: nat) returns (r: Opened)
      modifies this`live
      ensures r == Registered <==> maxChats > 0 && !shuttingDown && !Busy(old(live), mux)
      ensures r == Disabled <==> maxChats == 0
      ensures r == ShuttingDown <==> maxChats > 0 && shuttingDown
      ensures r == ChatLimit <==>
                && maxChats > 0 && !shuttingDown
                && exists i :: 0 <= i < |old(live)| && old(live)[i].mux == mux && !old(live)[i].closing
      ensures live == if r == Registered then old(live) + [Live(conn, mux, None, false, false)] else old(live)
    {
      if maxChats == 0 {
        return Disabled;
      }
      if shuttingDown {
        return ShuttingDown;
      }
      for i := 0 to |live|
        invariant !Busy(live[..i], mux)
      {
        if live[i].mux == mux && !live[i].closing {
          return ChatLimit;
        }
        assert forall j | 0 <= j < i + 1 && live[..i + 1][j].mux == mux :: j < i ==> live[..i][j] == live[..i + 1][j];
      }
      assert live[..|live|] == live;
      live := live + [Live(conn, mux, None, false, false)];
      return Registered;
    }

    /** The part of `make_room` under the lock: stops chats and returns whom to wait for. An older chat is
        stopped exactly if it has the same chat id, or it, the other chats behind it and the new one together
        are more than the cap. */
    method MakeRoom(conn: nat, chatId: string) returns (dones: set<nat>)
      modifies this`live
      ensures dones == Superseded(old(live), maxChats, conn, chatId)
      ensures live == StopThose(old(live), dones)
      ensures |live| == |old(live)|
      ensures forall i | 0 <= i < |live| ::
                live[i] == old(live)[i].(stop := old(live)[i].stop || old(live)[i].conn in dones)
      ensures Distinct(old(live)) ==>
                forall i | 0 <= i < |live| && old(live)[i].conn != conn ::
                  old(live)[i].conn in dones <==>
                    && old(live)[i].conn < conn
                    && (old(live)[i].chatId == Some(chatId) || |From(old(live), conn, i)| + 1 > maxChats)
      ensures Distinct(old(live)) ==> conn !in dones && dones <= Conns(old(live))
    {
      var others := [];
      for i := 0 to |live|
        invariant live == old(live) && others == Others(live[..i], conn)
      {
        OthersAppend(live[..i], live[i], conn);
        assert live[..i + 1] == live[..i] + [live[i]];
        if live[i].conn != conn {
          others := others + [live[i]];
        }
      }
      assert live[..|live|] == live;
      var excess := if |others| + 1 >= maxChats then |others| + 1 - maxChats else 0;
      dones := {};
      for i := 0 to |others|
        invariant live == old(live)
        invariant dones == set j | 0 <= j < i && Stopped(others, maxChats, conn, chatId, j) :: others[j].conn
      {
        var l := others[i];
        if l.conn < conn && (i < excess || l.chatId == Some(chatId)) {
          dones := dones + {l.conn};
        }
      }
      for i := 0 to |live|
        invariant |live| == |old(live)|
        invariant forall j | 0 <= j < i :: live[j] == StopThose(old(live), dones)[j]
        invariant forall j | i <= j < |live| :: live[j] == old(live)[j]
      {
        if live[i].conn in dones {
          live := live[i := live[i].(stop := true)];
        }
      }
      if Distinct(old(live)) {
        forall i | 0 <= i < |live| && old(live)[i].conn != conn
          ensures old(live)[i].conn in dones <==>
                    && old(live)[i].conn < conn
                    && (old(live)[i].chatId == Some(chatId) || |From(old(live), conn, i)| + 1 > maxChats)
        {
          StoppedIff(old(live), maxChats, conn, chatId, i);
        }
        OthersConns(old(live), conn);
        StoppedAreOthers(old(live), maxChats, conn, chatId);
      }
    }

    /** Refuses all later opens and stops every chat. */
    method Shutdown() returns (dones: set<nat>)
      modifies this`live, this`shuttingDown
      ensures shuttingDown && dones == Conns(old(live)) && live == StopThose(old(live), dones)
    {
      shuttingDown := true;
      dones := {};
      for i := 0 to |live|
        invariant shuttingDown && |live| == |old(live)|
        invariant dones == set j | 0 <= j < i :: old(live)[j].conn
        invariant forall j | 0 <= j < i :: live[j] == old(live)[j].(stop := true)
        invariant forall j | i <= j < |live| :: live[j] == old(live)[j]
      {
        dones := dones + {live[i].conn};
        live := live[i := live[i].(stop := true)];
      }
      assert forall i | 0 <= i < |live| :: old(live)[i].conn in dones;
    }

    /** The chat ended: `live.retain(conn != ...)`. */
    method End(conn: nat)
      modifies this`live
      ensures live == Others(old(live), conn)
    {
      var kept := [];
      for i := 0 to |live|
        invariant live == old(live) && kept == Others(live[..i], conn)
      {
        OthersAppend(live[..i], live[i], conn);
        assert live[..i + 1] == live[..i] + [live[i]];
        if live[i].conn != conn {
          kept := kept + [live[i]];
        }
      }
      assert live[..|live|] == live;
      live := kept;
    }
  }

  // ----- interleavings -----

  /** `waiting[c]` is whom chat `c` waits for in `make_room`; `passed` are the chats past it; `used` are
      the numbers of all chats that ever registered. `late` remembers each pair of an older and a newer chat
      where the older one took its chat id after the newer one had made room under the same id. */
  datatype System = System(
    live: seq<Live>, waiting: map<nat, set<nat>>, passed: set<nat>, used: set<nat>, late: set<(nat, nat)>, shut: bool)

  const INIT := System([], map[], {}, {}, {}, false)

  datatype Label =
    | Register(conn: nat, mux: nat)
    | Name(c: nat, chatId: string)     // `set_chat_id`
    | Enter(c: nat, chatId: string)    // the lock section of `make_room`
    | Leave(c: nat)
    | Shutdown                         // the supervisor is asked to stop
    | Close(c: nat)          // the relay of `c` ended; the chat tears down
    | End(c: nat)

  /** The counter gives each number once. It is drawn before the registry is locked, so nothing makes chats
      register in the order of their numbers; `ordered` says that they do. */
  predicate Drawn(ordered: bool, used: set<nat>, conn: nat) {
    conn !in used && (ordered ==> forall u | u in used :: u < conn)
  }

  function DoRegister(s: System, conn: nat, mux: nat): System {
    if Busy(s.live, mux) then s
    else s.(live := s.live + [Live(conn, mux, None, false, false)], used := s.used + {conn})
  }

  function SetChatId(live: seq<Live>, c: nat, id: string): seq<Live> {
    seq(|live|, i requires 0 <= i < |live| => if live[i].conn == c then live[i].(chatId := Some(id)) else live[i])
  }

  function SetClosing(live: seq<Live>, c: nat): seq<Live> {
    seq(|live|, i requires 0 <= i < |live| => if live[i].conn == c then live[i].(closing := true) else live[i])
  }

  predicate Named(live: seq<Live>, c: nat, id: string) {
    exists i :: 0 <= i < |live| && live[i].conn == c && live[i].chatId == Some(id)
  }

  predicate Unnamed(live: seq<Live>, c: nat) {
    exists i :: 0 <= i < |live| && live[i].conn == c && live[i].chatId == None
  }

  predicate Entered(s: System, c: nat) {
    c in s.waiting || c in s.passed
  }

  /** Each chat takes its chat id once, before it makes room. */
  function DoName(s: System, c: nat, id: string): System {
    if !Unnamed(s.live, c) || Entered(s, c) then s
    else s.(live := SetChatId(s.live, c, id),
            late := s.late + set b | b in s.waiting.Keys + s.passed && c < b && Named(s.live, b, id) :: (c, b))
  }

  function DoEnter(max: nat, s: System, c: nat, id: string): System {
    if !Named(s.live, c, id) || Entered(s, c) then s
    else
      var dones := Superseded(s.live, max, c, id);
      s.(live := StopThose(s.live, dones), waiting := s.waiting[c := dones])
  }

  predicate StopSet(live: seq<Live>, c: nat) {
    exists i :: 0 <= i < |live| && live[i].conn == c && live[i].stop
  }

  /** The waits completed. A chat that was stopped meanwhile goes no further. */
  function DoLeave(s: System, c: nat): System {
    if c !in s.waiting || s.waiting[c] * Conns(s.live) != {} then s
    else s.(waiting := s.waiting - {c}, passed := if StopSet(s.live, c) then s.passed else s.passed + {c})
  }

  function Step(ordered: bool, max: nat, s: System, l: Label): System {
    match l
    case Register(conn, mux) => if max == 0 || s.shut || !Drawn(ordered, s.used, conn) then s else DoRegister(s, conn, mux)
    case Name(c, chatId) => DoName(s, c, chatId)
    case Enter(c, chatId) => DoEnter(max, s, c, chatId)
    case Leave(c) => DoLeave(s, c)
    case Shutdown => s.(live := StopThose(s.live, Conns(s.live)), shut := true)
    case Close(c) => s.(live := SetClosing(s.live, c))
    case End(c) => if c in s.waiting then s else s.(live := Others(s.live, c), passed := s.passed - {c})
  }

  function Run(ordered: bool, max: nat, ls: seq<Label>): System
    decreases |ls|
  {
    if ls == [] then INIT else Step(ordered, max, Run(ordered, max, ls[..|ls| - 1]), ls[|ls| - 1])
  }

  predicate Ordered(live: seq<Live>) {
    forall i, j | 0 <= i < j < |live| :: live[i].conn < live[j].conn
  }

  /** The live chats older than `c`. */
  function Older(live: seq<Live>, c: nat): set<nat> {
    set i | 0 <= i < |live| && live[i].conn < c :: live[i].conn
  }

  predicate OnePerSocket(live: seq<Live>) {
    forall i, j | 0 <= i < j < |live| && live[i].mux == live[j].mux :: live[i].closing || live[j].closing
  }

  /** Chat `c` left fewer than `max` older chats that it neither outlived nor waits for. */
  predicate HasRoom(max: nat, live: seq<Live>, c: nat, waits: set<nat>) {
    c in Conns(live) && |Older(live, c) - waits| < max
  }

  predicate WaitsForOlder(waits: set<nat>, c: nat) {
    forall w | w in waits :: w < c
  }

  predicate ListOk(live: seq<Live>, used: set<nat>) {
    Distinct(live) && Conns(live) <= used && OnePerSocket(live)
  }

  predicate EnteredOk(live: seq<Live>, waiting: map<nat, set<nat>>, passed: set<nat>) {
    && waiting.Keys !! passed && waiting.Keys + passed <= Conns(live)
    && forall c | c in waiting :: WaitsForOlder(waiting[c], c)
  }

  /** What holds in whatever order chats register. */
  predicate Inv(s: System) {
    ListOk(s.live, s.used) && EnteredOk(s.live, s.waiting, s.passed)
  }

  predicate PassedOk(max: nat, live: seq<Live>, passed: set<nat>) {
    forall c | c in passed :: HasRoom(max, live, c, {})
  }

  predicate WaitsOk(max: nat, live: seq<Live>, waiting: map<nat, set<nat>>) {
    forall c | c in waiting :: HasRoom(max, live, c, waiting[c])
  }

  /** What holds besides if they register in order. */
  predicate RoomInv(max: nat, s: System) {
    Ordered(s.live) && PassedOk(max, s.live, s.passed) && WaitsOk(max, s.live, s.waiting)
  }

  /** Every chat that has room in `live` has it in `live'`. */
  ghost predicate RoomStays(max: nat, live: seq<Live>, live': seq<Live>) {
    forall c: nat, waits | HasRoom(max, live, c, waits) :: HasRoom(max, live', c, waits)
  }

  lemma RoomCarries(max: nat, live: seq<Live>, live': seq<Live>, passed: set<nat>, waiting: map<nat, set<nat>>)
    requires PassedOk(max, live, passed) && WaitsOk(max, live, waiting) && RoomStays(max, live, live')
    ensures PassedOk(max, live', passed) && WaitsOk(max, live', waiting)
  {
  }

  lemma ConnsAdd(a: seq<Live>, b: seq<Live>)
    ensures Conns(a + b) == Conns(a) + Conns(b)
  {
    forall c | c in Conns(a) + Conns(b) ensures c in Conns(a + b) {
      if c in Conns(a) {
        var i :| 0 <= i < |a| && a[i].conn == c;
        assert (a + b)[i].conn == c;
      } else {
        var i :| 0 <= i < |b| && b[i].conn == c;
        assert (a + b)[|a| + i].conn == c;
      }
    }
  }

  lemma {:induction false} OthersAt(live: seq<Live>, c: nat, p: nat)
    requires Distinct(live) && p < |live| && live[p].conn == c
    ensures Others(live, c) == live[..p] + live[p + 1..]
  {
    var rest := live[1..];
    if p == 0 {
      OthersNone(rest, c);
    } else {
      OthersAt(rest, c, p - 1);
      assert live[..p] == [live[0]] + rest[..p - 1] && live[p + 1..] == rest[p..];
    }
  }

  lemma {:induction false} OthersNone(live: seq<Live>, c: nat)
    requires forall i | 0 <= i < |live| :: live[i].conn != c
    ensures Others(live, c) == live
  {
    if live != [] {
      OthersNone(live[1..], c);
    }
  }

  /** Removing `c` takes one entry out, or nothing. */
  lemma Splits(live: seq<Live>, c: nat) returns (a: seq<Live>, m: seq<Live>, b: seq<Live>)
    requires Distinct(live)
    ensures live == a + m + b && Others(live, c) == a + b
    ensures Conns(m) <= {c} && c !in Conns(a + b)
  {
    if p: nat :| p < |live| && live[p].conn == c {
      OthersAt(live, c, p);
      a, m, b := live[..p], [live[p]], live[p + 1..];
    } else {
      OthersNone(live, c);
      a, m, b := live, [], [];
    }
  }

  lemma OthersConns(live: seq<Live>, c: nat)
    requires Distinct(live)
    ensures Conns(Others(live, c)) == Conns(live) - {c}
  {
    var a, m, b := Splits(live, c);
    ConnsAdd(a, b);
    ConnsAdd(a + m, b);
    ConnsAdd(a, m);
  }

  lemma CutKeepsTheList(a: seq<Live>, m: seq<Live>, b: seq<Live>)
    requires Distinct(a + m + b) && OnePerSocket(a + m + b)
    ensures Distinct(a + b) && OnePerSocket(a + b)
    ensures Ordered(a + m + b) ==> Ordered(a + b)
  {
    var all, cut, n := a + m + b, a + b, |a|;
    forall i, j | 0 <= i < j < |cut|
      ensures cut[i].conn != cut[j].conn && (cut[i].mux == cut[j].mux ==> cut[i].closing || cut[j].closing)
      ensures Ordered(all) ==> cut[i].conn < cut[j].conn
    {
      assert cut[i] == if i < n then all[i] else all[i + |m|];
      assert cut[j] == if j < n then all[j] else all[j + |m|];
    }
  }

  lemma FromFront(front: seq<Live>, last: Live, c: nat, i: nat)
    requires i < |front|
    ensures |From(front + [last], c, i)| == |From(front, c, i)| + (if last.conn != c then 1 else 0)
  {
    assert From(front + [last], c, i) == From(front, c, i) + (if last.conn != c then {|front|} else {});
  }

  lemma FromLast(front: seq<Live>, last: Live, c: nat)
    requires last.conn != c
    ensures |From(front + [last], c, |front|)| == 1
  {
    assert From(front + [last], c, |front|) == {|front|};
  }

  /** The other chats keep their order, so that what follows a chat among them is what follows it in the list. */
  lemma {:induction false} OthersBehind(live: seq<Live>, c: nat, i: nat) returns (k: nat)
    requires i < |live| && live[i].conn != c
    ensures k < |Others(live, c)| && Others(live, c)[k] == live[i] && |Others(live, c)| - k == |From(live, c, i)|
    decreases |live|
  {
    var front, last := live[..|live| - 1], live[|live| - 1];
    OthersAppend(front, last, c);
    assert live == front + [last];
    if i == |front| {
      k := |Others(front, c)|;
      FromLast(front, last, c);
    } else {
      k := OthersBehind(front, c, i);
      FromFront(front, last, c, i);
    }
  }

  /** An older chat is stopped exactly if it has the same id, or it, those behind it and the new one are more
      than the cap. */
  lemma StoppedIff(live: seq<Live>, max: nat, conn: nat, chatId: string, i: nat)
    requires Distinct(live) && i < |live| && live[i].conn != conn
    ensures live[i].conn in Superseded(live, max, conn, chatId)
            <==> live[i].conn < conn && (live[i].chatId == Some(chatId) || |From(live, conn, i)| + 1 > max)
  {
    var others := Others(live, conn);
    var k := OthersBehind(live, conn, i);
    assert k < Excess(|others|, max) <==> |From(live, conn, i)| + 1 > max;
    OthersDistinct(live, conn);
    if live[i].conn in Superseded(live, max, conn, chatId) {
      var j :| 0 <= j < |others| && Stopped(others, max, conn, chatId, j) && others[j].conn == live[i].conn;
      assert j == k;
    } else {
      assert !Stopped(others, max, conn, chatId, k);
    }
  }

  lemma OthersDistinct(live: seq<Live>, c: nat)
    requires Distinct(live)
    ensures Distinct(Others(live, c))
  {
    var a, m, b := Splits(live, c);
    var all, cut, n := a + m + b, a + b, |a|;
    forall i, j | 0 <= i < j < |cut| ensures cut[i].conn != cut[j].conn {
      assert cut[i] == if i < n then all[i] else all[i + |m|];
      assert cut[j] == if j < n then all[j] else all[j + |m|];
    }
  }

  lemma StoppedAreOthers(live: seq<Live>, max: nat, conn: nat, chatId: string)
    ensures Superseded(live, max, conn, chatId) <= Conns(Others(live, conn))
  {
  }

  /** A room with a free place stops nobody of another id: only in a registry that the new chat, which is in
      it, makes larger than the cap is anybody stopped for room; and then the oldest ones are, just as many as
      are too many. */
  lemma JustEnough(live: seq<Live>, max: nat, conn: nat, chatId: string)
    requires Ordered(live) && conn in Conns(live) && forall i | 0 <= i < |live| :: live[i].conn <= conn
    requires forall i | 0 <= i < |live| :: live[i].chatId != Some(chatId) || live[i].conn == conn
    requires max > 0
    ensures Superseded(live, max, conn, chatId) == Conns(live[..if |live| > max then |live| - max else 0])
  {
    var n, m := |live|, if |live| > max then |live| - max else 0;
    assert live[n - 1].conn == conn;
    forall i: nat | i < n - 1 ensures live[i].conn in Superseded(live, max, conn, chatId) <==> i < m {
      StoppedIff(live, max, conn, chatId, i);
      BehindLast(live, conn, i);
    }
    forall c | c in Superseded(live, max, conn, chatId) ensures c in Conns(live[..m]) {
      StoppedAreOthers(live, max, conn, chatId);
      OthersConns(live, conn);
      var i :| 0 <= i < n && live[i].conn == c;
      assert live[..m][i] == live[i];
    }
    forall c | c in Conns(live[..m]) ensures c in Superseded(live, max, conn, chatId) {
      var i :| 0 <= i < m && live[..m][i].conn == c;
      assert live[i].conn == c;
    }
  }

  lemma BehindLast(live: seq<Live>, conn: nat, i: nat)
    requires Ordered(live) && i < |live| - 1 && live[|live| - 1].conn == conn
    ensures |From(live, conn, i)| == |live| - 1 - i
  {
    assert From(live, conn, i) == Span(i, |live| - 1);
  }

  lemma {:induction false} FewConns(live: seq<Live>)
    ensures |Conns(live)| <= |live|
  {
    if live != [] {
      var front := live[..|live| - 1];
      FewConns(front);
      assert Conns(live) == Conns(front) + {live[|live| - 1].conn};
    }
  }

  /** The chats older than `c` that are not stopped stand between the excess and `c`. */
  lemma UnstoppedAreRecent(live: seq<Live>, max: nat, c: nat, chatId: string, p: nat, k: nat)
    requires Ordered(live) && p < |live| && live[p].conn == c
    requires k == if Excess(|live| - 1, max) < p then Excess(|live| - 1, max) else p
    ensures Older(live, c) - Superseded(live, max, c, chatId) <= Conns(live[k..p])
  {
    var others := Others(live, c);
    OthersAt(live, c, p);
    forall w | w in Older(live, c) - Superseded(live, max, c, chatId) ensures w in Conns(live[k..p]) {
      var i :| 0 <= i < |live| && live[i].conn == w && w < c;
      assert i < p && others[i] == live[i];
      assert !Stopped(others, max, c, chatId, i);
      assert live[k..p][i - k] == live[i];
    }
  }

  /** Of the chats older than `c`, fewer than `max` are left unstopped. */
  lemma RoomIsMade(live: seq<Live>, max: nat, c: nat, chatId: string)
    requires Ordered(live) && c in Conns(live) && max > 0
    ensures HasRoom(max, live, c, Superseded(live, max, c, chatId))
    ensures WaitsForOlder(Superseded(live, max, c, chatId), c)
  {
    var p :| 0 <= p < |live| && live[p].conn == c;
    var k := if Excess(|live| - 1, max) < p then Excess(|live| - 1, max) else p;
    UnstoppedAreRecent(live, max, c, chatId, p, k);
    FewConns(live[k..p]);
    SmallerSet(Older(live, c) - Superseded(live, max, c, chatId), Conns(live[k..p]));
    StoppedAreOlder(live, max, c, chatId);
  }

  lemma StoppedAreOlder(live: seq<Live>, max: nat, c: nat, chatId: string)
    ensures WaitsForOlder(Superseded(live, max, c, chatId), c)
  {
    var others := Others(live, c);
    forall w | w in Superseded(live, max, c, chatId) ensures w < c {
      var i :| 0 <= i < |others| && Stopped(others, max, c, chatId, i) && w == others[i].conn;
    }
  }

  /** Flags and chat ids change no order and no id. */
  predicate SameChats(live: seq<Live>, live': seq<Live>) {
    && |live'| == |live|
    && forall i | 0 <= i < |live| ::
      live'[i].conn == live[i].conn && live'[i].mux == live[i].mux && (live[i].closing ==> live'[i].closing)
  }

  lemma SameRoom(live: seq<Live>, live': seq<Live>, c: nat)
    requires SameChats(live, live')
    ensures Conns(live') == Conns(live) && Older(live', c) == Older(live, c)
  {
  }

  lemma FlagsKeepTheList(live: seq<Live>, live': seq<Live>, used: set<nat>)
    requires ListOk(live, used) && SameChats(live, live')
    ensures ListOk(live', used)
  {
  }

  lemma SameRooms(max: nat, live: seq<Live>, live': seq<Live>)
    requires SameChats(live, live')
    ensures RoomStays(max, live, live')
  {
    forall c: nat, waits | HasRoom(max, live, c, waits) ensures HasRoom(max, live', c, waits) {
      SameRoom(live, live', c);
    }
  }

  lemma FlagsKeep(s: System, live: seq<Live>)
    requires Inv(s) && SameChats(s.live, live)
    ensures Inv(s.(live := live))
  {
    FlagsKeepTheList(s.live, live, s.used);
    SameRoom(s.live, live, 0);
  }

  lemma FlagsKeepRoom(max: nat, s: System, live: seq<Live>)
    requires RoomInv(max, s) && SameChats(s.live, live)
    ensures RoomInv(max, s.(live := live))
  {
    SameRooms(max, s.live, live);
    RoomCarries(max, s.live, live, s.passed, s.waiting);
  }

  lemma RegisterKeeps(s: System, conn: nat, mux: nat)
    requires Inv(s) && conn !in s.used
    ensures Inv(DoRegister(s, conn, mux))
  {
    if !Busy(s.live, mux) {
      var l := Live(conn, mux, None, false, false);
      ConnsAdd(s.live, [l]);
      assert [l][0].conn == conn && Conns([l]) == {conn};
      assert forall i | 0 <= i < |s.live| :: s.live[i].conn in Conns(s.live);
    }
  }

  lemma RegisterKeepsRoom(max: nat, s: System, conn: nat, mux: nat)
    requires Inv(s) && RoomInv(max, s) && Drawn(true, s.used, conn)
    ensures RoomInv(max, DoRegister(s, conn, mux))
  {
    if !Busy(s.live, mux) {
      var l := Live(conn, mux, None, false, false);
      assert forall i | 0 <= i < |s.live| :: s.live[i].conn in Conns(s.live);
      forall c: nat, waits | HasRoom(max, s.live, c, waits) ensures HasRoom(max, s.live + [l], c, waits) {
        NewerMakesNoDifference(s.live, l, c);
      }
      RoomCarries(max, s.live, s.live + [l], s.passed, s.waiting);
    }
  }

  lemma NewerMakesNoDifference(live: seq<Live>, l: Live, c: nat)
    requires c in Conns(live) && forall i | 0 <= i < |live| :: live[i].conn < l.conn
    ensures c in Conns(live + [l]) && Older(live + [l], c) == Older(live, c)
  {
    var all := live + [l];
    ConnsAdd(live, [l]);
    assert c < l.conn;
    forall w | w in Older(live, c) ensures w in Older(all, c) {
      var i :| 0 <= i < |live| && live[i].conn == w;
      assert all[i].conn == w;
    }
  }

  lemma EnterKeeps(max: nat, s: System, c: nat, chatId: string)
    requires Inv(s)
    ensures Inv(DoEnter(max, s, c, chatId))
  {
    if Named(s.live, c, chatId) && !Entered(s, c) {
      var dones := Superseded(s.live, max, c, chatId);
      FlagsKeep(s, StopThose(s.live, dones));
      SameRoom(s.live, StopThose(s.live, dones), c);
      StoppedAreOlder(s.live, max, c, chatId);
    }
  }

  lemma EnterKeepsRoom(max: nat, s: System, c: nat, chatId: string)
    requires RoomInv(max, s) && max > 0
    ensures RoomInv(max, DoEnter(max, s, c, chatId))
  {
    if Named(s.live, c, chatId) && !Entered(s, c) {
      var dones := Superseded(s.live, max, c, chatId);
      RoomIsMade(s.live, max, c, chatId);
      SameRoom(s.live, StopThose(s.live, dones), c);
      FlagsKeepRoom(max, s, StopThose(s.live, dones));
    }
  }

  lemma LeaveKeepsRoom(max: nat, s: System, c: nat)
    requires RoomInv(max, s)
    ensures RoomInv(max, DoLeave(s, c))
  {
    if c in s.waiting && s.waiting[c] * Conns(s.live) == {} {
      WaitedHasRoom(max, s.live, c, s.waiting[c]);
      WaitOver(max, s, c);
      var t := s.(waiting := s.waiting - {c});
      assert DoLeave(s, c) == t || DoLeave(s, c) == t.(passed := s.passed + {c});
    }
  }

  lemma WaitOver(max: nat, s: System, c: nat)
    requires RoomInv(max, s) && HasRoom(max, s.live, c, {})
    ensures RoomInv(max, s.(waiting := s.waiting - {c}))
    ensures RoomInv(max, s.(waiting := s.waiting - {c}, passed := s.passed + {c}))
  {
  }

  /** Once the chats it waited for are gone, it has room without waiting. */
  lemma WaitedHasRoom(max: nat, live: seq<Live>, c: nat, waits: set<nat>)
    requires HasRoom(max, live, c, waits) && waits * Conns(live) == {}
    ensures HasRoom(max, live, c, {})
  {
    var older := Older(live, c);
    assert older <= Conns(live);
    assert older - waits == older - {};
  }

  lemma EndKeeps(s: System, c: nat)
    requires Inv(s) && c !in s.waiting
    ensures Inv(s.(live := Others(s.live, c), passed := s.passed - {c}))
  {
    var a, m, b := Splits(s.live, c);
    CutKeepsTheList(a, m, b);
    OthersConns(s.live, c);
  }

  lemma EndKeepsRoom(max: nat, s: System, c: nat)
    requires Inv(s) && RoomInv(max, s) && c !in s.waiting
    ensures RoomInv(max, s.(live := Others(s.live, c), passed := s.passed - {c}))
  {
    var live := Others(s.live, c);
    var a, m, b := Splits(s.live, c);
    CutKeepsTheList(a, m, b);
    OthersConns(s.live, c);
    forall d: nat, waits | d != c && HasRoom(max, s.live, d, waits) ensures HasRoom(max, live, d, waits) {
      RoomWithout(max, s.live, live, d, waits);
    }
    assert PassedOk(max, live, s.passed - {c});
    assert WaitsOk(max, live, s.waiting);
  }

  lemma RoomWithout(max: nat, live: seq<Live>, live': seq<Live>, d: nat, waits: set<nat>)
    requires HasRoom(max, live, d, waits) && d in Conns(live') && Conns(live') <= Conns(live)
    ensures HasRoom(max, live', d, waits)
  {
    forall w | w in Older(live', d) ensures w in Older(live, d) {
      assert w in Conns(live');
    }
    SmallerSet(Older(live', d) - waits, Older(live, d) - waits);
  }

  lemma {:induction false} RunKeeps(ordered: bool, max: nat, ls: seq<Label>)
    ensures Inv(Run(ordered, max, ls))
    decreases |ls|
  {
    if ls != [] {
      var s := Run(ordered, max, ls[..|ls| - 1]);
      RunKeeps(ordered, max, ls[..|ls| - 1]);
      match ls[|ls| - 1]
      case Register(conn, mux) => if Drawn(ordered, s.used, conn) { RegisterKeeps(s, conn, mux); }
      case Name(c, chatId) => FlagsKeep(s, SetChatId(s.live, c, chatId));
      case Enter(c, chatId) => EnterKeeps(max, s, c, chatId);
      case Leave(c) =>
      case Shutdown => FlagsKeep(s, StopThose(s.live, Conns(s.live)));
      case Close(c) => FlagsKeep(s, SetClosing(s.live, c));
      case End(c) => if c !in s.waiting { EndKeeps(s, c); }
    }
  }

  lemma {:induction false} RunKeepsRoom(max: nat, ls: seq<Label>)
    requires max > 0
    ensures RoomInv(max, Run(true, max, ls))
    decreases |ls|
  {
    if ls != [] {
      var s := Run(true, max, ls[..|ls| - 1]);
      RunKeeps(true, max, ls[..|ls| - 1]);
      RunKeepsRoom(max, ls[..|ls| - 1]);
      match ls[|ls| - 1]
      case Register(conn, mux) => if Drawn(true, s.used, conn) { RegisterKeepsRoom(max, s, conn, mux); }
      case Name(c, chatId) => FlagsKeepRoom(max, s, SetChatId(s.live, c, chatId));
      case Enter(c, chatId) => EnterKeepsRoom(max, s, c, chatId);
      case Leave(c) => LeaveKeepsRoom(max, s, c);
      case Shutdown => FlagsKeepRoom(max, s, StopThose(s.live, Conns(s.live)));
      case Close(c) => FlagsKeepRoom(max, s, SetClosing(s.live, c));
      case End(c) => if c !in s.waiting { EndKeepsRoom(max, s, c); }
    }
  }

  lemma {:induction false} Greatest(a: set<nat>) returns (m: nat)
    requires a != {}
    ensures m in a && forall x | x in a :: x <= m
  {
    m :| m in a;
    if a != {m} {
      var n := Greatest(a - {m});
      assert forall x | x in a :: x == m || x in a - {m};
      if n > m { m := n; }
    }
  }

  /** If chats register in the order of their numbers, those past `make_room` and not yet ended never exceed
      `max_chats`. */
  lemma CapHolds(max: nat, ls: seq<Label>)
    ensures |Run(true, max, ls).passed| <= max
  {
    if max == 0 {
      NothingWithoutChats(true, ls);
    } else {
      RunKeepsRoom(max, ls);
      FewPassed(max, Run(true, max, ls).live, Run(true, max, ls).passed);
    }
  }

  /** All passed chats but the newest are older than it, and it has room. */
  lemma FewPassed(max: nat, live: seq<Live>, passed: set<nat>)
    requires PassedOk(max, live, passed)
    ensures |passed| <= max
  {
    if passed != {} {
      var m := Greatest(passed);
      assert HasRoom(max, live, m, {});
      assert Older(live, m) - {} == Older(live, m);
      PassedAreLive(max, live, passed);
      forall c | c in passed - {m} ensures c in Older(live, m) {
        IsOlder(live, c, m);
      }
      SmallerSet(passed - {m}, Older(live, m));
    }
  }

  lemma PassedAreLive(max: nat, live: seq<Live>, passed: set<nat>)
    requires PassedOk(max, live, passed)
    ensures passed <= Conns(live)
  {
    forall c | c in passed ensures c in Conns(live) {
      assert HasRoom(max, live, c, {});
    }
  }

  lemma IsOlder(live: seq<Live>, c: nat, m: nat)
    requires c in Conns(live) && c < m
    ensures c in Older(live, m)
  {
  }

  lemma {:induction false} NothingWithoutChats(ordered: bool, ls: seq<Label>)
    ensures var s := Run(ordered, 0, ls); s.live == [] && s.waiting == map[] && s.passed == {}
    decreases |ls|
  {
    if ls != [] {
      NothingWithoutChats(ordered, ls[..|ls| - 1]);
    }
  }

  /** No deadlock: of the chats that wait, one waits only for chats that do not wait themselves. */
  lemma SomeWaitIsFree(ordered: bool, max: nat, ls: seq<Label>)
    requires Run(ordered, max, ls).waiting != map[]
    ensures var s := Run(ordered, max, ls); exists c :: c in s.waiting && s.waiting[c] !! s.waiting.Keys
  {
    RunKeeps(ordered, max, ls);
    var s := Run(ordered, max, ls);
    var c := Least(s.waiting.Keys);
    assert s.waiting[c] !! s.waiting.Keys;
  }

  lemma {:induction false} Least(a: set<nat>) returns (m: nat)
    requires a != {}
    ensures m in a && forall x | x in a :: m <= x
  {
    m :| m in a;
    if a != {m} {
      var n := Least(a - {m});
      assert forall x | x in a :: x == m || x in a - {m};
      if n < m { m := n; }
    }
  }

  /** A socket has at most one chat that is not tearing down. */
  lemma OneChatPerSocket(ordered: bool, max: nat, ls: seq<Label>)
    ensures OnePerSocket(Run(ordered, max, ls).live)
  {
    RunKeeps(ordered, max, ls);
  }

  // ----- the cap needs the order -----

  /** Chat `c`, on a socket of its own, from registration to the end of `make_room`. */
  function Turn(c: nat): seq<Label> {
    [Register(c, c), Name(c, "id"), Enter(c, "id"), Leave(c)]
  }

  /** The chats from `lo` up to `hi`, the newest number first. */
  function Descending(lo: nat, hi: nat): seq<Label>
    decreases hi - lo
  {
    if lo >= hi then [] else Descending(lo + 1, hi) + Turn(lo)
  }

  /** The chats numbered from `lo` up to `hi` are live, each on its own socket, all under one chat id, and
      past `make_room`. */
  predicate AllThere(s: System, lo: nat, hi: nat) {
    && s.passed == Span(lo, hi) && s.waiting == map[] && !s.shut
    && (forall i | 0 <= i < |s.live| :: s.live[i].mux == s.live[i].conn >= lo && s.live[i].chatId == Some("id"))
    && (forall u | u in s.used :: u >= lo)
  }

  lemma RunOn(ordered: bool, max: nat, ls: seq<Label>, l: Label)
    ensures Run(ordered, max, ls + [l]) == Step(ordered, max, Run(ordered, max, ls), l)
  {
    assert (ls + [l])[..|ls|] == ls;
  }

  /** What a registered chat does: takes its id, makes room, passes. */
  function Through(max: nat, s: System, c: nat, id: string): System {
    DoLeave(DoEnter(max, DoName(s, c, id), c, id), c)
  }

  lemma GoesThrough(ordered: bool, max: nat, ls: seq<Label>, c: nat, id: string)
    ensures Run(ordered, max, ls + [Name(c, id)] + [Enter(c, id)] + [Leave(c)]) == Through(max, Run(ordered, max, ls), c, id)
  {
    var s := Run(ordered, max, ls);
    RunOn(ordered, max, ls, Name(c, id));
    RunOn(ordered, max, ls + [Name(c, id)], Enter(c, id));
    RunOn(ordered, max, ls + [Name(c, id)] + [Enter(c, id)], Leave(c));
    TheSteps(ordered, max, s, c, id);
    TheSteps(ordered, max, DoName(s, c, id), c, id);
    TheSteps(ordered, max, DoEnter(max, DoName(s, c, id), c, id), c, id);
  }

  lemma TheSteps(ordered: bool, max: nat, s: System, c: nat, id: string)
    ensures Step(ordered, max, s, Name(c, id)) == DoName(s, c, id)
    ensures Step(ordered, max, s, Enter(c, id)) == DoEnter(max, s, c, id)
    ensures Step(ordered, max, s, Leave(c)) == DoLeave(s, c)
  {
  }

  lemma TurnRuns(ordered: bool, max: nat, ls: seq<Label>, c: nat)
    ensures Run(ordered, max, ls + Turn(c)) == Through(max, Step(ordered, max, Run(ordered, max, ls), Register(c, c)), c, "id")
  {
    assert ls + Turn(c) == ls + [Register(c, c)] + [Name(c, "id")] + [Enter(c, "id")] + [Leave(c)];
    RunOn(ordered, max, ls, Register(c, c));
    GoesThrough(ordered, max, ls + [Register(c, c)], c, "id");
  }

  lemma {:induction false} OthersAreNewer(live: seq<Live>, c: nat)
    requires forall i | 0 <= i < |live| :: live[i].conn >= c
    ensures forall i | 0 <= i < |Others(live, c)| :: Others(live, c)[i].conn > c
  {
    if live != [] {
      OthersAreNewer(live[1..], c);
    }
  }

  /** A chat older than all others stops none of them and waits for none. */
  lemma OldestStopsNone(max: nat, s: System, c: nat)
    requires (forall i | 0 <= i < |s.live| :: s.live[i].conn >= c) && Named(s.live, c, "id") && !Entered(s, c)
    requires !StopSet(s.live, c) && s.waiting == map[]
    ensures DoLeave(DoEnter(max, s, c, "id"), c) == s.(passed := s.passed + {c})
  {
    OthersAreNewer(s.live, c);
    assert Superseded(s.live, max, c, "id") == {};
    assert StopThose(s.live, {}) == s.live;
    var e := DoEnter(max, s, c, "id");
    assert e == s.(waiting := map[c := {}]);
    assert e.waiting - {c} == map[];
  }

  lemma OldestPasses(max: nat, s: System, c: nat, hi: nat)
    requires AllThere(s, c + 1, hi) && c < hi && max > 0
    ensures AllThere(Through(max, Step(false, max, s, Register(c, c)), c, "id"), c, hi)
  {
    var r := Step(false, max, s, Register(c, c));
    OldestRegisters(max, s, c, hi);
    OldestIsNamed(s, r, c, hi);
    OldestStopsNone(max, DoName(r, c, "id"), c);
  }

  lemma OldestRegisters(max: nat, s: System, c: nat, hi: nat)
    requires AllThere(s, c + 1, hi) && max > 0
    ensures Step(false, max, s, Register(c, c))
         == s.(live := s.live + [Live(c, c, None, false, false)], used := s.used + {c})
  {
    assert !Busy(s.live, c);
  }

  lemma OldestIsNamed(s: System, r: System, c: nat, hi: nat)
    requires AllThere(s, c + 1, hi) && r == s.(live := s.live + [Live(c, c, None, false, false)], used := s.used + {c})
    ensures var n := DoName(r, c, "id");
            && n == r.(live := s.live + [Live(c, c, Some("id"), false, false)], late := n.late)
            && Named(n.live, c, "id") && !Entered(n, c) && !StopSet(n.live, c)
  {
    var l := Live(c, c, None, false, false);
    assert r.live[|s.live|] == l && Unnamed(r.live, c) && !Entered(r, c);
    var live := s.live + [l.(chatId := Some("id"))];
    assert SetChatId(r.live, c, "id") == live;
    assert live[|s.live|] == l.(chatId := Some("id")) && Named(live, c, "id");
  }

  lemma {:induction false} AllPass(max: nat, lo: nat, hi: nat)
    requires lo <= hi && max > 0
    ensures AllThere(Run(false, max, Descending(lo, hi)), lo, hi)
    decreases hi - lo
  {
    if lo < hi {
      AllPass(max, lo + 1, hi);
      TurnRuns(false, max, Descending(lo + 1, hi), lo);
      OldestPasses(max, Run(false, max, Descending(lo + 1, hi)), lo, hi);
    }
  }

  /** Whatever the cap, chats that register in descending order all pass, however many they are. */
  lemma OutOfOrderBreaksTheCap(max: nat, many: nat)
    requires max > 0
    ensures |Run(false, max, Descending(0, many)).passed| == many
  {
    AllPass(max, 0, many);
  }

  /** For every cap: it holds in every run exactly if chats register in the order of their numbers (or no chat
      is allowed). */
  lemma CapHoldsIff(ordered: bool, max: nat)
    ensures (forall ls :: |Run(ordered, max, ls).passed| <= max) <==> ordered || max == 0
  {
    if ordered {
      forall ls ensures |Run(true, max, ls).passed| <= max { CapHolds(max, ls); }
    } else if max == 0 {
      forall ls ensures |Run(false, 0, ls).passed| <= 0 { NothingWithoutChats(false, ls); }
    } else {
      OutOfOrderBreaksTheCap(max, max + 1);
    }
  }

  // ----- one chat id, one chat -----

  predicate SamePlaces(live: seq<Live>, a: nat, b: nat, i: nat, j: nat) {
    && i < |live| && j < |live| && live[i].conn == a && live[j].conn == b
    && live[i].chatId.Some? && live[i].chatId == live[j].chatId
  }

  ghost predicate SameId(live: seq<Live>, a: nat, b: nat) {
    exists i: nat, j: nat :: SamePlaces(live, a, b, i, j)
  }

  /** An older chat under the id of a newer one that made room is being waited for, or came late. */
  predicate Shares(s: System, a: nat, b: nat) {
    (b in s.waiting && a in s.waiting[b]) || (a, b) in s.late
  }

  ghost predicate IdsOk(s: System) {
    forall a: nat, b: nat | a < b && Entered(s, b) && SameId(s.live, a, b) :: Shares(s, a, b)
  }

  ghost predicate LateOk(s: System) {
    forall p | p in s.late ::
      p.0 in s.used && p.1 in s.used && (p.0 in Conns(s.live) && p.1 in Conns(s.live) ==> SameId(s.live, p.0, p.1))
  }

  /** Names that were there before are all there is. */
  ghost predicate NoNewIds(live: seq<Live>, live': seq<Live>) {
    forall a, b | SameId(live', a, b) :: SameId(live, a, b)
  }

  lemma IdsCarry(s: System, live: seq<Live>)
    requires IdsOk(s) && NoNewIds(s.live, live)
    ensures IdsOk(s.(live := live))
  {
    var t := s.(live := live);
    forall a: nat, b: nat | a < b && Entered(t, b) && SameId(live, a, b) ensures Shares(t, a, b) {
      assert SameId(s.live, a, b) && Entered(s, b) && Shares(s, a, b);
    }
  }

  lemma RegisterAddsNoId(live: seq<Live>, l: Live)
    requires l.chatId == None
    ensures NoNewIds(live, live + [l])
  {
    forall a, b | SameId(live + [l], a, b) ensures SameId(live, a, b) {
      var i: nat, j: nat :| SamePlaces(live + [l], a, b, i, j);
      assert SamePlaces(live, a, b, i, j);
    }
  }

  lemma RegisterKeepsIds(s: System, conn: nat, mux: nat)
    requires IdsOk(s)
    ensures IdsOk(DoRegister(s, conn, mux))
  {
    var t := DoRegister(s, conn, mux);
    RegisterAddsNoId(s.live, Live(conn, mux, None, false, false));
    if !Busy(s.live, mux) {
      forall a: nat, b: nat | a < b && Entered(t, b) && SameId(t.live, a, b) ensures Shares(t, a, b) {
        assert SameId(s.live, a, b) && Entered(s, b) && Shares(s, a, b);
      }
    }
  }

  lemma CloseKeepsIds(s: System, c: nat)
    requires IdsOk(s)
    ensures IdsOk(s.(live := SetClosing(s.live, c)))
  {
    FlagsAddNoId(s.live, SetClosing(s.live, c));
    IdsCarry(s, SetClosing(s.live, c));
  }

  lemma ShutdownKeepsIds(s: System)
    requires IdsOk(s)
    ensures IdsOk(s.(live := StopThose(s.live, Conns(s.live)), shut := true))
  {
    var t := s.(live := StopThose(s.live, Conns(s.live)), shut := true);
    FlagsAddNoId(s.live, t.live);
    forall a: nat, b: nat | a < b && Entered(t, b) && SameId(t.live, a, b) ensures Shares(t, a, b) {
      assert SameId(s.live, a, b) && Entered(s, b) && Shares(s, a, b);
    }
  }

  lemma FlagsAddNoId(live: seq<Live>, live': seq<Live>)
    requires |live'| == |live|
    requires forall i | 0 <= i < |live| :: live'[i].conn == live[i].conn && live'[i].chatId == live[i].chatId
    ensures NoNewIds(live, live') && NoNewIds(live', live)
  {
    forall a, b | SameId(live', a, b) ensures SameId(live, a, b) {
      var i: nat, j: nat :| SamePlaces(live', a, b, i, j);
      assert SamePlaces(live, a, b, i, j);
    }
    forall a, b | SameId(live, a, b) ensures SameId(live', a, b) {
      var i: nat, j: nat :| SamePlaces(live, a, b, i, j);
      assert SamePlaces(live', a, b, i, j);
    }
  }

  lemma CutAddsNoId(a: seq<Live>, m: seq<Live>, b: seq<Live>)
    ensures NoNewIds(a + m + b, a + b)
  {
    var all, cut, n := a + m + b, a + b, |a|;
    forall x, y | SameId(cut, x, y) ensures SameId(all, x, y) {
      var i: nat, j: nat :| SamePlaces(cut, x, y, i, j);
      assert SamePlaces(all, x, y, if i < n then i else i + |m|, if j < n then j else j + |m|);
    }
  }

  /** Naming makes only pairs with the named chat alike. */
  lemma NameAddsOwnIds(live: seq<Live>, c: nat, id: string, a: nat, b: nat)
    requires SameId(SetChatId(live, c, id), a, b) && a != b
    ensures SameId(live, a, b) || (a == c && Named(live, b, id)) || (b == c && Named(live, a, id))
  {
    var live' := SetChatId(live, c, id);
    var i: nat, j: nat :| SamePlaces(live', a, b, i, j);
    assert a != c && b != c ==> SamePlaces(live, a, b, i, j);
  }

  lemma NameKeepsIds(s: System, c: nat, id: string)
    requires IdsOk(s)
    ensures IdsOk(DoName(s, c, id))
  {
    var t := DoName(s, c, id);
    if Unnamed(s.live, c) && !Entered(s, c) {
      forall a: nat, b: nat | a < b && Entered(t, b) && SameId(t.live, a, b) ensures Shares(t, a, b) {
        NameAddsOwnIds(s.live, c, id, a, b);
        assert SameId(s.live, a, b) ==> Shares(s, a, b);
      }
    }
  }

  lemma EnterKeepsIds(max: nat, s: System, c: nat, id: string)
    requires IdsOk(s) && Distinct(s.live)
    ensures IdsOk(DoEnter(max, s, c, id))
  {
    var t := DoEnter(max, s, c, id);
    if Named(s.live, c, id) && !Entered(s, c) {
      FlagsAddNoId(s.live, t.live);
      forall a: nat, b: nat | a < b && Entered(t, b) && SameId(t.live, a, b) ensures Shares(t, a, b) {
        if b == c {
          SameIdIsStopped(s.live, max, a, c, id);
        } else {
          assert Shares(s, a, b);
        }
      }
    }
  }

  /** Making room stops every older chat under the same id. */
  lemma SameIdIsStopped(live: seq<Live>, max: nat, a: nat, c: nat, id: string)
    requires Distinct(live) && a < c && SameId(live, a, c) && Named(live, c, id)
    ensures a in Superseded(live, max, c, id)
  {
    var i: nat, p: nat :| SamePlaces(live, a, c, i, p);
    var q: nat :| q < |live| && live[q].conn == c && live[q].chatId == Some(id);
    assert p == q && i != p;
    OthersAt(live, c, p);
    var others, k := Others(live, c), if i < p then i else i - 1;
    assert others[k] == live[i];
    assert Stopped(others, max, c, id, k);
  }

  lemma GoneAreNotWaitedFor(waits: set<nat>, live: seq<Live>, a: nat)
    requires waits * Conns(live) == {} && a in Conns(live)
    ensures a !in waits
  {
    assert a in waits ==> a in waits * Conns(live);
  }

  lemma LeaveKeepsIds(s: System, c: nat)
    requires IdsOk(s) && c in s.waiting && s.waiting[c] * Conns(s.live) == {}
    ensures IdsOk(DoLeave(s, c))
  {
    var t := DoLeave(s, c);
    forall a: nat, b: nat | a < b && Entered(t, b) && SameId(t.live, a, b) ensures Shares(t, a, b) {
      assert Entered(s, b) && Shares(s, a, b);
      var i: nat, j: nat :| SamePlaces(s.live, a, b, i, j);
      GoneAreNotWaitedFor(s.waiting[c], s.live, a);
    }
  }

  lemma EndKeepsIds(s: System, c: nat)
    requires IdsOk(s) && Distinct(s.live)
    ensures IdsOk(s.(live := Others(s.live, c), passed := s.passed - {c}))
  {
    var a, m, b := Splits(s.live, c);
    CutAddsNoId(a, m, b);
    IdsCarry(s, a + b);
    var t, u := s.(live := a + b), s.(live := a + b, passed := s.passed - {c});
    forall x: nat, y: nat | x < y && Entered(u, y) && SameId(u.live, x, y) ensures Shares(u, x, y) {
      assert Entered(t, y) && Shares(t, x, y);
    }
  }

  lemma StepKeepsIds(ordered: bool, max: nat, s: System, l: Label)
    requires IdsOk(s) && Distinct(s.live)
    ensures IdsOk(Step(ordered, max, s, l))
  {
    match l
    case Register(conn, mux) => RegisterKeepsIds(s, conn, mux);
    case Name(c, id) => NameKeepsIds(s, c, id);
    case Enter(c, id) => EnterKeepsIds(max, s, c, id);
    case Leave(c) => if c in s.waiting && s.waiting[c] * Conns(s.live) == {} { LeaveKeepsIds(s, c); }
    case Shutdown => ShutdownKeepsIds(s);
    case Close(c) => CloseKeepsIds(s, c);
    case End(c) => if c !in s.waiting { EndKeepsIds(s, c); }
  }

  lemma {:induction false} RunKeepsIds(ordered: bool, max: nat, ls: seq<Label>)
    ensures IdsOk(Run(ordered, max, ls))
    decreases |ls|
  {
    if ls != [] {
      var s := Run(ordered, max, ls[..|ls| - 1]);
      RunKeeps(ordered, max, ls[..|ls| - 1]);
      RunKeepsIds(ordered, max, ls[..|ls| - 1]);
      StepKeepsIds(ordered, max, s, ls[|ls| - 1]);
    }
  }

  // ----- late pairs are under one id -----

  ghost predicate KeepsIds(s: System, t: System) {
    forall a: nat, b: nat | SameId(s.live, a, b) && a in Conns(t.live) && b in Conns(t.live) :: SameId(t.live, a, b)
  }

  /** New chats get new numbers. */
  predicate OnlyFreshConns(s: System, t: System) {
    s.used <= t.used && forall c | c in Conns(t.live) && c in s.used :: c in Conns(s.live)
  }

  lemma LateCarries(s: System, t: System)
    requires LateOk(s) && KeepsIds(s, t) && OnlyFreshConns(s, t)
    requires forall p | p in t.late - s.late :: p.0 in t.used && p.1 in t.used && SameId(t.live, p.0, p.1)
    ensures LateOk(t)
  {
  }

  lemma RegisterKeepsLate(s: System, conn: nat, mux: nat)
    requires LateOk(s) && conn !in s.used
    ensures LateOk(DoRegister(s, conn, mux))
  {
    if !Busy(s.live, mux) {
      var l, t := Live(conn, mux, None, false, false), DoRegister(s, conn, mux);
      ConnsAdd(s.live, [l]);
      forall a: nat, b: nat | SameId(s.live, a, b) ensures SameId(t.live, a, b) {
        var i: nat, j: nat :| SamePlaces(s.live, a, b, i, j);
        assert SamePlaces(t.live, a, b, i, j);
      }
      LateCarries(s, t);
    }
  }

  lemma FlagsKeepLate(s: System, live: seq<Live>)
    requires LateOk(s) && |live| == |s.live|
    requires forall i | 0 <= i < |live| :: live[i].conn == s.live[i].conn && live[i].chatId == s.live[i].chatId
    ensures LateOk(s.(live := live))
  {
    FlagsAddNoId(s.live, live);
    LateCarries(s, s.(live := live));
  }

  lemma NameKeepsLate(s: System, c: nat, id: string)
    requires LateOk(s) && ListOk(s.live, s.used)
    ensures LateOk(DoName(s, c, id))
  {
    if Unnamed(s.live, c) && !Entered(s, c) {
      var t := DoName(s, c, id);
      forall a: nat, b: nat | SameId(s.live, a, b) ensures SameId(t.live, a, b) {
        var i: nat, j: nat :| SamePlaces(s.live, a, b, i, j);
        assert SamePlaces(t.live, a, b, i, j);
      }
      var k :| 0 <= k < |s.live| && s.live[k].conn == c;
      forall b: nat | c < b && Named(s.live, b, id) ensures b in t.used && c in t.used && SameId(t.live, c, b) {
        var i :| 0 <= i < |s.live| && s.live[i].conn == b && s.live[i].chatId == Some(id);
        assert SamePlaces(t.live, c, b, k, i) && s.live[i].conn in Conns(s.live) && s.live[k].conn in Conns(s.live);
      }
      LateCarries(s, t);
    }
  }

  lemma EndKeepsLate(s: System, c: nat)
    requires LateOk(s) && Distinct(s.live)
    ensures LateOk(s.(live := Others(s.live, c), passed := s.passed - {c}))
  {
    var t := s.(live := Others(s.live, c), passed := s.passed - {c});
    var a, m, b := Splits(s.live, c);
    OthersConns(s.live, c);
    forall x: nat, y: nat | SameId(s.live, x, y) && x != c && y != c ensures SameId(t.live, x, y) {
      CutKeepsId(a, m, b, c, x, y);
    }
    LateCarries(s, t);
  }

  lemma CutKeepsId(a: seq<Live>, m: seq<Live>, b: seq<Live>, c: nat, x: nat, y: nat)
    requires Conns(m) <= {c} && SameId(a + m + b, x, y) && x != c && y != c
    ensures SameId(a + b, x, y)
  {
    var all, n, k := a + m + b, |a|, |m|;
    var i: nat, j: nat :| SamePlaces(all, x, y, i, j);
    assert forall p | n <= p < n + k :: all[p] == m[p - n] && m[p - n].conn in Conns(m);
    assert SamePlaces(a + b, x, y, if i < n then i else i - k, if j < n then j else j - k);
  }

  lemma {:induction false} RunKeepsLate(ordered: bool, max: nat, ls: seq<Label>)
    ensures LateOk(Run(ordered, max, ls))
    decreases |ls|
  {
    if ls != [] {
      var s := Run(ordered, max, ls[..|ls| - 1]);
      RunKeeps(ordered, max, ls[..|ls| - 1]);
      RunKeepsLate(ordered, max, ls[..|ls| - 1]);
      match ls[|ls| - 1]
      case Register(conn, mux) => if Drawn(ordered, s.used, conn) { RegisterKeepsLate(s, conn, mux); }
      case Name(c, id) => NameKeepsLate(s, c, id);
      case Enter(c, id) => FlagsKeepLate(s, DoEnter(max, s, c, id).live);
      case Leave(c) =>
      case Shutdown => FlagsKeepLate(s, StopThose(s.live, Conns(s.live)));
      case Close(c) => FlagsKeepLate(s, SetClosing(s.live, c));
      case End(c) => if c !in s.waiting { EndKeepsLate(s, c); }
    }
  }

  /** Two chats past `make_room` work under one chat id exactly if the older one took that id after the
      newer one had made room under it: a newer chat only stops older ones that already carry the id. */
  lemma OneChatPerIdIff(ordered: bool, max: nat, ls: seq<Label>, a: nat, b: nat)
    requires a < b && a in Run(ordered, max, ls).passed && b in Run(ordered, max, ls).passed
    ensures SameId(Run(ordered, max, ls).live, a, b) <==> (a, b) in Run(ordered, max, ls).late
  {
    RunKeeps(ordered, max, ls);
    RunKeepsIds(ordered, max, ls);
    RunKeepsLate(ordered, max, ls);
  }

  // ----- when one chat id can have two chats -----

  ghost predicate TwoUnderOneId(s: System) {
    exists a: nat, b: nat :: a < b && a in s.passed && b in s.passed && SameId(s.live, a, b)
  }

  function Chat(c: nat, id: Option<string>): Live {
    Live(c, c, id, false, false)
  }

  /** Chats 0 and 1 are registered. */
  function Two(a: Option<string>, b: Option<string>, waiting: map<nat, set<nat>>, passed: set<nat>, late: set<(nat, nat)>): System {
    System([Chat(0, a), Chat(1, b)], waiting, passed, {0, 1}, late, false)
  }

  lemma BothRegister(max: nat)
    requires max > 0
    ensures Run(true, max, [] + [Register(0, 0)] + [Register(1, 1)]) == Two(None, None, map[], {}, {})
  {
    RunOn(true, max, [], Register(0, 0));
    RunOn(true, max, [] + [Register(0, 0)], Register(1, 1));
    var s := INIT.(live := [Chat(0, None)], used := {0});
    assert [] + [Chat(0, None)] == [Chat(0, None)] && [Chat(0, None)] + [Chat(1, None)] == [Chat(0, None), Chat(1, None)];
    assert Step(true, max, INIT, Register(0, 0)) == s;
    assert !Busy(s.live, 1);
  }

  /** Chat `c` of the two makes room, stops nobody, and passes. */
  lemma StopsNoneAndPasses(max: nat, s: System, c: nat, id: string)
    requires s.waiting == map[] && Superseded(s.live, max, c, id) == {}
    requires Named(s.live, c, id) && c !in s.passed && !StopSet(s.live, c)
    ensures DoLeave(DoEnter(max, s, c, id), c) == s.(passed := s.passed + {c})
  {
    assert StopThose(s.live, {}) == s.live;
    var e := DoEnter(max, s, c, id);
    assert e == s.(waiting := map[c := {}]);
    assert e.waiting - {c} == map[];
  }

  lemma NewerFirst(max: nat, id: string)
    requires max >= 2
    ensures Through(max, Two(None, None, map[], {}, {}), 1, id) == Two(None, Some(id), map[], {1}, {})
  {
    var s := Two(None, Some(id), map[], {}, {});
    assert Two(None, None, map[], {}, {}).live[1].conn == 1;
    assert SetChatId([Chat(0, None), Chat(1, None)], 1, id) == s.live;
    assert DoName(Two(None, None, map[], {}, {}), 1, id) == s;
    assert s.live == [Chat(0, None)] + [Chat(1, Some(id))];
    OthersAppend([Chat(0, None)], Chat(1, Some(id)), 1);
    OthersNone([Chat(0, None)], 1);
    assert Superseded(s.live, max, 1, id) == {};
    assert s.live[1].conn == 1;
    StopsNoneAndPasses(max, s, 1, id);
  }

  lemma OlderLater(max: nat, id: string)
    ensures Through(max, Two(None, Some(id), map[], {1}, {}), 0, id) == Two(Some(id), Some(id), map[], {0, 1}, {(0, 1)})
  {
    var s, t := Two(None, Some(id), map[], {1}, {}), Two(Some(id), Some(id), map[], {1}, {(0, 1)});
    assert s.live[0].conn == 0 && s.live[1].conn == 1;
    assert SetChatId(s.live, 0, id) == t.live;
    assert DoName(s, 0, id) == t;
    assert t.live[0].conn == 0;
    OthersAreNewer(t.live, 0);
    assert Superseded(t.live, max, 0, id) == {};
    StopsNoneAndPasses(max, t, 0, id);
  }

  /** Chats in order, with room for two: the newer one takes the id and passes, then the older one takes the
      same id and passes. */
  const REGISTER: seq<Label> := [] + [Register(0, 0)] + [Register(1, 1)]
  const NEWER: seq<Label> := REGISTER + [Name(1, "x")] + [Enter(1, "x")] + [Leave(1)]
  const LATE: seq<Label> := NEWER + [Name(0, "x")] + [Enter(0, "x")] + [Leave(0)]

  lemma NewerPasses(max: nat)
    requires max >= 2
    ensures Run(true, max, NEWER) == Two(None, Some("x"), map[], {1}, {})
  {
    BothRegister(max);
    GoesThrough(true, max, REGISTER, 1, "x");
    NewerFirst(max, "x");
  }

  lemma OlderNamedLater(max: nat)
    requires max >= 2
    ensures Run(true, max, LATE) == Two(Some("x"), Some("x"), map[], {0, 1}, {(0, 1)})
    ensures SameId(Run(true, max, LATE).live, 0, 1)
  {
    NewerPasses(max);
    GoesThrough(true, max, NEWER, 0, "x");
    OlderLater(max, "x");
    assert SamePlaces([Chat(0, Some("x")), Chat(1, Some("x"))], 0, 1, 0, 1);
  }

  lemma AllUnderOneId(s: System, lo: nat, hi: nat, a: nat, b: nat)
    requires AllThere(s, lo, hi) && s.passed <= Conns(s.live) && lo <= a < b < hi
    ensures TwoUnderOneId(s)
  {
    assert a in s.passed && b in s.passed;
    var i: nat :| i < |s.live| && s.live[i].conn == a;
    var j: nat :| j < |s.live| && s.live[j].conn == b;
    assert SamePlaces(s.live, a, b, i, j);
  }

  /** Out of order, one place is enough: those that passed in descending order have the same id. */
  lemma OlderRegisteredLater(max: nat, ls: seq<Label>)
    requires max > 0 && ls == Descending(0, 2)
    ensures TwoUnderOneId(Run(false, max, ls))
  {
    AllPass(max, 0, 2);
    RunKeeps(false, max, ls);
    AllUnderOneId(Run(false, max, ls), 0, 2, 0, 1);
  }

  ghost predicate TwoCanShare(ordered: bool, max: nat) {
    exists ls :: TwoUnderOneId(Run(ordered, max, ls))
  }

  /** In some run two chats work under one id exactly if the cap leaves room for two, or for one and chats may
      register out of order. */
  lemma TwoUnderOneIdIff(ordered: bool, max: nat)
    ensures TwoCanShare(ordered, max) <==> max >= 2 || (max == 1 && !ordered)
  {
    if max > 0 && !ordered {
      OlderRegisteredLater(max, Descending(0, 2));
      assert TwoCanShare(false, max);
    } else if max >= 2 {
      OlderNamedLater(max);
      assert TwoUnderOneId(Run(true, max, LATE));
    } else {
      forall ls ensures !TwoUnderOneId(Run(ordered, max, ls)) {
        FewPass(ordered, max, ls);
      }
    }
  }

  lemma FewPass(ordered: bool, max: nat, ls: seq<Label>)
    requires max == 0 || (max == 1 && ordered)
    ensures !TwoUnderOneId(Run(ordered, max, ls))
  {
    var passed := Run(ordered, max, ls).passed;
    if max == 0 {
      NothingWithoutChats(ordered, ls);
    } else {
      CapHolds(max, ls);
      forall a, b | a in passed && b in passed ensures a == b {
        SmallerSet({a, b}, passed);
      }
    }
  }

  // ----- shutdown -----

  predicate AllStopped(live: seq<Live>) {
    forall i | 0 <= i < |live| :: live[i].stop
  }

  lemma {:induction false} OthersStopped(live: seq<Live>, c: nat)
    requires AllStopped(live)
    ensures AllStopped(Others(live, c))
  {
    if live != [] {
      OthersStopped(live[1..], c);
    }
  }

  predicate ShutOk(s: System) {
    s.shut ==> AllStopped(s.live)
  }

  lemma StepKeepsShut(ordered: bool, max: nat, s: System, l: Label)
    requires ShutOk(s) && s.waiting.Keys <= Conns(s.live)
    ensures ShutOk(Step(ordered, max, s, l))
    ensures s.shut ==> Step(ordered, max, s, l).shut && Step(ordered, max, s, l).passed <= s.passed
  {
    match l
    case Leave(c) =>
      if s.shut && c in s.waiting {
        var i :| 0 <= i < |s.live| && s.live[i].conn == c;
        assert s.live[i].stop;
      }
    case End(c) => if s.shut { OthersStopped(s.live, c); }
    case _ =>
  }

  lemma {:induction false} RunKeepsShut(ordered: bool, max: nat, ls: seq<Label>)
    ensures ShutOk(Run(ordered, max, ls))
    decreases |ls|
  {
    if ls != [] {
      RunKeepsShut(ordered, max, ls[..|ls| - 1]);
      RunKeeps(ordered, max, ls[..|ls| - 1]);
      StepKeepsShut(ordered, max, Run(ordered, max, ls[..|ls| - 1]), ls[|ls| - 1]);
    }
  }

  /** Once the supervisor shuts down, no chat goes past `make_room` any more. */
  lemma {:induction false} NonePassAfterShutdown(ordered: bool, max: nat, ls: seq<Label>, more: seq<Label>)
    requires Run(ordered, max, ls).shut
    ensures Run(ordered, max, ls + more).shut && Run(ordered, max, ls + more).passed <= Run(ordered, max, ls).passed
    decreases |more|
  {
    if more == [] {
      assert ls + more == ls;
    } else {
      var all, front := ls + more, ls + more[..|more| - 1];
      assert all[..|all| - 1] == front;
      NonePassAfterShutdown(ordered, max, ls, more[..|more| - 1]);
      RunKeepsShut(ordered, max, front);
      RunKeeps(ordered, max, front);
      StepKeepsShut(ordered, max, Run(ordered, max, front), all[|all| - 1]);
    }
  }
}
