/**
 Waiting out GitHub's rate limits (tracks/src/github.rs: `rate_limit_wait`, `send`). Times are in
 milliseconds.
 */
module RateLimit {
  import opened Wrappers

  const SECOND := 1000
  const DEFAULT_WAIT := 60 * SECOND

  const FORBIDDEN := 403
  const TOO_MANY := 429

  /** What `send` looks at in an answer; header values that are no numbers count as absent. */
  datatype Answer = Answer(
    status: nat, retryAfter: Option<nat>, remaining: Option<string>, reset: Option<nat>, saysRateLimit: bool)

  predicate Blocking(a: Answer) {
    a.status == FORBIDDEN || a.status == TOO_MANY
  }

  function AtLeastASecond(seconds: nat): nat {
    if seconds < 1 then SECOND else seconds * SECOND
  }

  /** `now` is the time in seconds. */
  function RateLimitWait(a: Answer, now: nat): (r: Option<nat>)
    ensures r.Some? ==> r.value >= SECOND
    ensures r.Some? && a.retryAfter.Some? ==> r.value >= a.retryAfter.value * SECOND
    ensures r.Some? && a.retryAfter.None? && a.remaining == Some("0") && a.reset.Some? ==>
              now * SECOND + r.value >= a.reset.value * SECOND
    ensures r.Some? && a.retryAfter.Some? ==> r.value <= SECOND || r.value == a.retryAfter.value * SECOND
    ensures r.Some? && a.retryAfter.None? && a.remaining == Some("0") && a.reset.Some? ==>
              r.value <= SECOND || now * SECOND + r.value == a.reset.value * SECOND
    ensures r.Some? && a.retryAfter.None? && (a.remaining == Some("0") ==> a.reset.None?) ==> r.value == 60 * SECOND
    ensures r.Some? <==> && (a.status == 403 || a.status == 429)
                         && (a.retryAfter.Some? || a.remaining == Some("0") || a.status == 429 || a.saysRateLimit)
  {
    if !Blocking(a) then None
    else if a.retryAfter.Some? then Some(AtLeastASecond(a.retryAfter.value))
    else if a.remaining == Some("0") then
      match a.reset
      case Some(reset) => Some(AtLeastASecond(if reset > now then reset - now else 0))
      case None => Some(DEFAULT_WAIT)
    else if a.status == TOO_MANY || a.saysRateLimit then Some(DEFAULT_WAIT)
    else None
  }

  datatype SendError = Limited(wait: nat) | NoReply | Refused(status: nat)

  /** How one turn of the loop finds the world: how much time passes before it looks, what the request
      brings and how long it takes. The deadline `blocked_until` is shared with every other call, so each
      of the times in between may bring new ones, in the order they were stored: before the look, during the
      sleep until the deadline, and while the request is under way. */
  datatype Turn = Turn(passes: nat, before: seq<nat>, asleep: seq<nat>, inFlight: seq<nat>, answer: Option<Answer>, takes: nat)

  /** The time, and every deadline that any call ever stored, in order. */
  datatype World = World(now: nat, learned: seq<nat>)

  /** `blocked_until`: only the deadline stored last is kept, longer than the one before or not. */
  function Stored(learned: seq<nat>): Option<nat> {
    if learned == [] then None else Some(learned[|learned| - 1])
  }

  function BlockedFor(blockedUntil: Option<nat>, now: nat): nat {
    if blockedUntil.Some? && blockedUntil.value > now then blockedUntil.value - now else 0
  }

  /** A request that went out: when, what had been learned by then and how much of it when its turn looked,
      and how long the turn slept. */
  datatype Request = Request(at: nat, learned: seq<nat>, looked: nat, slept: nat)

  /** The request of a turn. */
  function RequestOf(turn: Turn, w: World): Request {
    var look := w.learned + turn.before;
    var d := BlockedFor(Stored(look), w.now + turn.passes);
    Request(w.now + turn.passes + d, if d > 0 then look + turn.asleep else look, |look|, d)
  }

  /** The world when the answer is there. */
  function Answered(turn: Turn, w: World): World {
    var q := RequestOf(turn, w);
    World(q.at + turn.takes, q.learned + turn.inFlight)
  }

  function LimitOf(turn: Turn, w: World): Option<nat> {
    match turn.answer
    case None => None
    case Some(a) => RateLimitWait(a, Answered(turn, w).now / SECOND)
  }

  /** The world when the answer's own limit, if it is one, is waited out. */
  function AfterTurn(turn: Turn, w: World): World {
    var t := Answered(turn, w);
    match LimitOf(turn, w)
    case None => t
    case Some(wait) => World(t.now + wait, t.learned + [t.now + wait])
  }

  /** The world before turn `n`, when each turn before it waited out a limit. */
  function WorldAt(turns: nat -> Turn, w: World, n: nat): World {
    if n == 0 then w else AfterTurn(turns(n - 1), WorldAt(turns, w, n - 1))
  }

  /** How long the turns before turn `n` slept. */
  function Spent(turns: nat -> Turn, w: World, n: nat): nat {
    if n == 0 then 0 else Spent(turns, w, n - 1) + SpentIn(turns(n - 1), WorldAt(turns, w, n - 1))
  }

  function SpentIn(turn: Turn, w: World): nat {
    RequestOf(turn, w).slept + (if LimitOf(turn, w).Some? then LimitOf(turn, w).value else 0)
  }

  /** The turn sends, is told to wait, and waits, all within `max`; `waited` is for the turns before it. */
  predicate WaitsOut(turn: Turn, w: World, waited: nat, max: nat) {
    LimitOf(turn, w).Some? && waited + SpentIn(turn, w) <= max
  }

  predicate WaitedOut(turns: nat -> Turn, w: World, n: nat, max: nat) {
    WaitsOut(turns(n), WorldAt(turns, w, n), Spent(turns, w, n), max)
  }

  predicate AllWaitOut(turns: nat -> Turn, w: World, n: nat, max: nat) {
    forall i: nat | i < n :: WaitedOut(turns, w, i, max)
  }

  /** What comes of a turn that is the last one: it gives up before it sends, or it sends and `r` is what the
      answer says, or that its limit is too long. */
  predicate Ends(turn: Turn, w: World, waited: nat, max: nat, r: Result<Answer, SendError>) {
    var q := RequestOf(turn, w);
    if waited + q.slept > max then r == Failure(Limited(q.slept))
    else if turn.answer.None? then r == Failure(NoReply)
    else if !Blocking(turn.answer.value) then r == Success(turn.answer.value)
    else
      match LimitOf(turn, w)
      case None => turn.answer.value.status == FORBIDDEN && r == Failure(Refused(FORBIDDEN))
      case Some(wait) => waited + q.slept + wait > max && r == Failure(Limited(wait))
  }

  /** The requests of the first turns. */
  predicate FromTurns(requests: seq<Request>, turns: nat -> Turn, w: World) {
    forall i | 0 <= i < |requests| :: IsFrom(requests[i], turns, w, i)
  }

  predicate IsFrom(q: Request, turns: nat -> Turn, w: World, n: nat) {
    q == RequestOf(turns(n), WorldAt(turns, w, n))
  }

  /** `n` turns are waited out within `max` and turn `n` ends with `r`; these are the requests that went out,
      each of its own turn, and this is how long it slept. */
  predicate Outcome(turns: nat -> Turn, w: World, n: nat, max: nat, requests: seq<Request>, slept: nat,
                    r: Result<Answer, SendError>) {
    var last := RequestOf(turns(n), WorldAt(turns, w, n));
    var sends := Spent(turns, w, n) + last.slept <= max;
    && AllWaitOut(turns, w, n, max) && Ends(turns(n), WorldAt(turns, w, n), Spent(turns, w, n), max, r)
    && FromTurns(requests, turns, w) && |requests| == (if sends then n + 1 else n)
    && slept == Spent(turns, w, n) + (if sends then last.slept else 0)
  }

  /** `n` turns are waited out; where that leads. */
  predicate Through(turns: nat -> Turn, w: World, n: nat, max: nat, here: World, waited: nat, requests: seq<Request>) {
    && AllWaitOut(turns, w, n, max) && here == WorldAt(turns, w, n) && waited == Spent(turns, w, n)
    && |requests| == n && FromTurns(requests, turns, w)
  }

  lemma OneMoreRequest(turns: nat -> Turn, w: World, requests: seq<Request>, q: Request)
    requires FromTurns(requests, turns, w) && IsFrom(q, turns, w, |requests|)
    ensures FromTurns(requests + [q], turns, w)
  {
    var more := requests + [q];
    forall i | 0 <= i < |more| ensures IsFrom(more[i], turns, w, i) {
      assert more[i] == if i < |requests| then requests[i] else q;
    }
  }

  lemma OneMoreTurn(turns: nat -> Turn, w: World, n: nat, max: nat, here: World, waited: nat, requests: seq<Request>)
    requires Through(turns, w, n, max, here, waited, requests) && WaitsOut(turns(n), here, waited, max)
    ensures Through(turns, w, n + 1, max, AfterTurn(turns(n), here), waited + SpentIn(turns(n), here),
                    requests + [RequestOf(turns(n), here)])
  {
    OneMoreRequest(turns, w, requests, RequestOf(turns(n), here));
    assert WaitedOut(turns, w, n, max);
  }

  /** It gives up on a limit only if the next wait would have been too much. */
  predicate GivesUpRightly(r: Result<Answer, SendError>, slept: nat, max: nat) {
    match r
    case Success(a) => !Blocking(a)
    case Failure(Limited(wait)) => slept + wait > max
    case Failure(Refused(status)) => status == FORBIDDEN
    case Failure(NoReply) => true
  }

  lemma LastTurn(turns: nat -> Turn, w: World, n: nat, max: nat, here: World, waited: nat, requests: seq<Request>,
                 r: Result<Answer, SendError>)
    requires Through(turns, w, n, max, here, waited, requests) && Ends(turns(n), here, waited, max, r)
    ensures var q := RequestOf(turns(n), here);
            if waited + q.slept <= max then Outcome(turns, w, n, max, requests + [q], waited + q.slept, r)
            else Outcome(turns, w, n, max, requests, waited, r)
    ensures var q := RequestOf(turns(n), here); GivesUpRightly(r, waited + (if waited + q.slept <= max then q.slept else 0), max)
  {
    OneMoreRequest(turns, w, requests, RequestOf(turns(n), here));
  }

  /** Nothing is sent at all exactly if the first deadline is too far ahead already. */
  lemma NothingIsSentIff(turns: nat -> Turn, w: World, n: nat, max: nat, requests: seq<Request>, slept: nat,
                         r: Result<Answer, SendError>)
    requires Outcome(turns, w, n, max, requests, slept, r)
    ensures requests == [] <==> RequestOf(turns(0), w).slept > max
  {
    if n > 0 {
      assert WaitedOut(turns, w, 0, max);
    }
  }

  // ----- requests that go out too early -----

  /** Some call had been told to wait for longer. */
  predicate Early(q: Request) {
    exists i :: 0 <= i < |q.learned| && q.learned[i] > q.at
  }

  /** The deadline stored last is ahead. */
  predicate Blocked(q: Request) {
    BlockedFor(Stored(q.learned), q.at) > 0
  }

  /** Another call stored a deadline past the end of the turn's sleep while it slept. */
  predicate Overtaken(q: Request, turn: Turn) {
    q.slept > 0 && exists i :: 0 <= i < |turn.asleep| && turn.asleep[i] > q.at
  }

  /** Before the turn looked, a deadline past the time of its request had been replaced; the one it found in
      its place was over by then. */
  predicate Overwritten(q: Request) {
    exists i :: 0 <= i < q.looked - 1 < |q.learned| && q.learned[i] > q.at >= q.learned[q.looked - 1]
  }

  /** Each request went out early exactly if its turn was overtaken, or the deadline had been overwritten. */
  predicate OnlyThen(requests: seq<Request>, turns: nat -> Turn) {
    forall i | 0 <= i < |requests| :: Early(requests[i]) <==> Overtaken(requests[i], turns(i)) || Overwritten(requests[i])
  }

  lemma LookedAt(turn: Turn, w: World)
    ensures var q, look := RequestOf(turn, w), w.learned + turn.before;
            && q.looked == |look| <= |q.learned| && q.learned[..q.looked] == look
            && q.learned[q.looked..] == (if q.slept > 0 then turn.asleep else [])
            && (look != [] ==> q.learned[|look| - 1] == Stored(look).value <= q.at)
            && (q.slept > 0 ==> look != [] && q.learned[|look| - 1] == q.at)
  {
  }

  /** Whatever is learned when: a request goes out before some deadline that was learned exactly if its turn
      slept and another call stored a longer one meanwhile, or a later answer had replaced that deadline by a
      shorter one. */
  lemma EarlyIff(turn: Turn, w: World)
    ensures var q := RequestOf(turn, w); Early(q) <==> Overtaken(q, turn) || Overwritten(q)
  {
    var q, n := RequestOf(turn, w), RequestOf(turn, w).looked;
    LookedAt(turn, w);
    if Early(q) {
      var i :| 0 <= i < |q.learned| && q.learned[i] > q.at;
      if i < n {
        assert i != n - 1;
      } else {
        assert q.learned[n..][i - n] == turn.asleep[i - n];
      }
    }
    if Overtaken(q, turn) {
      var i :| 0 <= i < |turn.asleep| && turn.asleep[i] > q.at;
      assert q.learned[n + i] == q.learned[n..][i];
    }
  }

  /** Of these, the deadline stored last is ahead exactly if it was stored during the sleep. */
  lemma BlockedIff(turn: Turn, w: World)
    ensures var q := RequestOf(turn, w);
            Blocked(q) <==> q.slept > 0 && turn.asleep != [] && turn.asleep[|turn.asleep| - 1] > q.at
  {
    var q := RequestOf(turn, w);
    LookedAt(turn, w);
    if q.slept > 0 && turn.asleep != [] {
      assert q.learned[|q.learned| - 1] == q.learned[q.looked..][|turn.asleep| - 1];
    }
  }

  // ----- sending -----

  class Client {
    const maxWait: nat
    var blockedUntil: Option<nat>
    var now: nat
    var requests: seq<Request>
    var learned: seq<nat>
    ghost var slept: nat

    constructor (maxWait: nat)
      ensures this.maxWait == maxWait && Valid() && Here() == World(0, []) && requests == [] && slept == 0
    {
      this.maxWait, blockedUntil, now, requests, learned, slept := maxWait, None, 0, [], [], 0;
    }

    ghost predicate Valid()
      reads this
    {
      blockedUntil == Stored(learned)
    }

    function Here(): World
      reads this
    {
      World(now, learned)
    }

    /** Other calls store these deadlines, one over the other. */
    method OthersLearn(deadlines: seq<nat>)
      requires Valid()
      modifies this`blockedUntil, this`learned
      ensures Valid() && learned == old(learned) + deadlines
    {
      for i := 0 to |deadlines|
        invariant Valid() && learned == old(learned) + deadlines[..i]
      {
        blockedUntil, learned := Some(deadlines[i]), learned + [deadlines[i]];
      }
      assert deadlines[..|deadlines|] == deadlines;
    }

    method Sleep(d: nat, deadlines: seq<nat>)
      requires Valid()
      modifies this`now, this`slept, this`blockedUntil, this`learned
      ensures Valid() && now == old(now) + d && slept == old(slept) + d && learned == old(learned) + deadlines
    {
      OthersLearn(deadlines);
      now, slept := now + d, slept + d;
    }

    /** Sends, and sends again after each rate limit: `n` turns are waited out within `maxWait`, and the next
        one is the last. The deadline is read once a turn, before the sleep, and every answer replaces it, so
        a request goes out before a deadline that was learned exactly if another call stored that one during
        the sleep, or a shorter one had been stored after it. */
    method Send(turns: nat -> Turn) returns (r: Result<Answer, SendError>, n: nat)
      requires Valid()
      modifies this
      ensures Valid() && n * SECOND <= maxWait
      ensures old(slept) <= slept <= old(slept) + maxWait && old(requests) <= requests
      ensures Outcome(turns, old(Here()), n, maxWait, requests[|old(requests)|..], slept - old(slept), r)
      ensures OnlyThen(requests[|old(requests)|..], turns)
      ensures GivesUpRightly(r, slept - old(slept), maxWait)
    {
      var waited := 0;
      n := 0;
      ghost var w, sent: seq<Request> := Here(), [];
      while true
        invariant Valid() && waited <= maxWait && slept == old(slept) + waited && n * SECOND <= waited
        invariant Through(turns, w, n, maxWait, Here(), waited, sent) && requests == old(requests) + sent
        decreases maxWait - waited
      {
        ghost var here := Here();
        ghost var q := RequestOf(turns(n), here);
        var done, waited' := OneTurn(turns(n), waited);
        if done.Some? {
          LastTurn(turns, w, n, maxWait, here, waited, sent, done.value);
          sent := if waited + q.slept <= maxWait then sent + [q] else sent;
          assert requests[|old(requests)|..] == sent;
          AllOnlyThen(sent, turns, w);
          return done.value, n;
        }
        OneMoreTurn(turns, w, n, maxWait, here, waited, sent);
        waited, n, sent := waited', n + 1, sent + [q];
      }
    }

    /** A turn of the loop: `done` is what `send` returns, unless a limit was waited out. */
    method OneTurn(turn: Turn, waited: nat) returns (done: Option<Result<Answer, SendError>>, waited': nat)
      requires Valid() && waited <= maxWait
      modifies this
      ensures Valid() && waited' <= maxWait && slept == old(slept) + (waited' - waited)
      ensures var q := RequestOf(turn, old(Here()));
              if waited + q.slept > maxWait then requests == old(requests) && waited' == waited && done.Some?
              else requests == old(requests) + [q] && (done.Some? ==> waited' == waited + q.slept)
      ensures done.None? ==>
                && WaitsOut(turn, old(Here()), waited, maxWait) && Here() == AfterTurn(turn, old(Here()))
                && waited' == waited + SpentIn(turn, old(Here())) >= waited + SECOND
      ensures done.Some? ==> Ends(turn, old(Here()), waited, maxWait, done.value)
    {
      waited' := waited;
      var r := Dispatch(turn, waited);
      if r.Failure? {
        return Some(Failure(r.error)), waited;
      }
      waited' := waited + r.value;
      now := now + turn.takes;
      OthersLearn(turn.inFlight);
      if turn.answer.None? {
        return Some(Failure(NoReply)), waited';
      }
      if !Blocking(turn.answer.value) {
        return Some(Success(turn.answer.value)), waited';
      }
      var wait := RateLimitWait(turn.answer.value, now / SECOND);
      if wait == None {
        return Some(Failure(Refused(turn.answer.value.status))), waited';
      }
      blockedUntil, learned := Some(now + wait.value), learned + [now + wait.value];
      if waited' + wait.value > maxWait {
        return Some(Failure(Limited(wait.value))), waited';
      }
      Sleep(wait.value, []); // what others learn meanwhile is what the next turn finds
      return None, waited' + wait.value;
    }

    /** The first half of a turn: look at the deadline, sleep until it, send. */
    method Dispatch(turn: Turn, waited: nat) returns (r: Result<nat, SendError>)
      requires Valid() && waited <= maxWait
      modifies this
      ensures Valid()
      ensures var q := RequestOf(turn, old(Here()));
              if waited + q.slept <= maxWait
              then && r == Success(q.slept) && requests == old(requests) + [q] && slept == old(slept) + q.slept
                   && Here() == World(q.at, q.learned)
              else r == Failure(Limited(q.slept)) && requests == old(requests) && slept == old(slept)
    {
      now := now + turn.passes;
      OthersLearn(turn.before);
      var looked, blocked := |learned|, BlockedFor(blockedUntil, now);
      if blocked != 0 {
        if waited + blocked > maxWait {
          return Failure(Limited(blocked));
        }
        Sleep(blocked, turn.asleep);
      }
      requests := requests + [Request(now, learned, looked, blocked)];
      return Success(blocked);
    }
  }

  lemma AllOnlyThen(requests: seq<Request>, turns: nat -> Turn, w: World)
    requires FromTurns(requests, turns, w)
    ensures OnlyThen(requests, turns)
  {
    forall i | 0 <= i < |requests|
      ensures Early(requests[i]) <==> Overtaken(requests[i], turns(i)) || Overwritten(requests[i])
    {
      assert IsFrom(requests[i], turns, w, i);
      EarlyIff(turns(i), WorldAt(turns, w, i));
    }
  }

  // ----- two runs -----

  method FirstRequest(c: Client, turns: nat -> Turn) returns (q: Request)
    requires c.Valid() && c.requests == [] && RequestOf(turns(0), c.Here()).slept <= c.maxWait
    modifies c
    ensures q == RequestOf(turns(0), old(c.Here()))
  {
    var r, n := c.Send(turns);
    return c.requests[0];
  }

  lemma WaitedOutGoesOn(turn: Turn, w: World, max: nat, r: Result<Answer, SendError>)
    requires WaitsOut(turn, w, 0, max)
    ensures !Ends(turn, w, 0, max, r)
  {
  }

  /** What the second turn starts with. */
  lemma SecondTurn(turns: nat -> Turn, w: World)
    ensures WorldAt(turns, w, 1) == AfterTurn(turns(0), w) && Spent(turns, w, 1) == SpentIn(turns(0), w)
  {
    assert WorldAt(turns, w, 0) == w && Spent(turns, w, 0) == 0;
  }

  method SecondRequest(c: Client, turns: nat -> Turn) returns (q: Request)
    requires c.Valid() && c.requests == [] && WaitsOut(turns(0), c.Here(), 0, c.maxWait)
    requires SpentIn(turns(0), c.Here()) + RequestOf(turns(1), AfterTurn(turns(0), c.Here())).slept <= c.maxWait
    modifies c
    ensures q == RequestOf(turns(1), AfterTurn(turns(0), old(c.Here())))
  {
    ghost var w := c.Here();
    SecondTurn(turns, w);
    var r, n := c.Send(turns);
    if n == 0 {
      WaitedOutGoesOn(turns(0), w, c.maxWait, r);
    }
    return c.requests[1];
  }

  /** Two calls with 120 s to wait: this one finds a deadline 10 s ahead and sleeps until it; meanwhile the
      other one, already under way, is told to come back in 60 s at the fifth second. This one sends all the
      same, 55 s before the deadline that it could know. */
  method SendsWhileBlocked(answer: Answer) returns (q: Request)
    ensures q == Request(10 * SECOND, [10 * SECOND, 65 * SECOND], 1, 10 * SECOND) && Early(q) && Blocked(q)
  {
    var c := new Client(120 * SECOND);
    var turn := Turn(0, [10 * SECOND], [65 * SECOND], [], Some(answer), 0);
    assert RequestOf(turn, World(0, [])) == Request(10 * SECOND, [10 * SECOND, 65 * SECOND], 1, 10 * SECOND);
    q := FirstRequest(c, n => turn);
    assert q.learned[1] > q.at;
  }

  /** While a request of this call is under way, another one is told at the fifth second to come back in 60 s.
      This one's own answer at the sixth second says one second, and that replaces the deadline: a second
      request goes out at the seventh second, and nothing looks blocked. */
  method SendsAfterAShorterAnswer(answer: Answer) returns (q: Request)
    ensures q == Request(7 * SECOND, [65 * SECOND, 7 * SECOND], 2, 0) && Early(q) && !Blocked(q)
  {
    var c := new Client(120 * SECOND);
    var first := Turn(0, [], [], [65 * SECOND], Some(Answer(TOO_MANY, Some(1), None, None, false)), 6 * SECOND);
    var second := Turn(0, [], [], [], Some(answer), 0);
    assert RequestOf(first, World(0, [])) == Request(0, [], 0, 0);
    var w := World(7 * SECOND, [65 * SECOND, 7 * SECOND]);
    assert AfterTurn(first, World(0, [])) == w;
    assert RequestOf(second, w) == Request(7 * SECOND, [65 * SECOND, 7 * SECOND], 2, 0);
    q := SecondRequest(c, n => if n == 0 then first else second);
    assert q.learned[0] > q.at;
  }
}
