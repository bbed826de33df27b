/**
 The snapshot cache (tracks/src/github.rs: `SnapshotCache::get_or_fetch`, `fetch_snapshot`) against a
 GitHub whose branches move while requests are under way.
 */
module SnapshotCache {
  import opened Wrappers

  type Key = string
  type Sha = string

  /** An entity tag stands for one representation (section 8.8.3 of RFC 9110), here the head it named. */
  datatype Etag = Etag(sha: Sha, serial: nat)

  datatype Files = Files(workflows: Option<string>, modes: Option<string>)
  datatype Snapshot = Snapshot(sha: Sha, files: Files)
  datatype Cached = Cached(snap: Snapshot, etag: Option<Etag>)

  datatype SourceError = Transient | Permanent

  datatype HeadReply =
    | NotModified
    | Body(text: string, etag: Option<Etag>)
    | Status(code: nat)
    | SendFailed(error: SourceError)

  predicate HexDigit(c: char) {
    '0' <= c <= '9' || 'a' <= c <= 'f' || 'A' <= c <= 'F'
  }

  predicate LooksLikeSha(s: string) {
    |s| >= 7 && forall i | 0 <= i < |s| :: HexDigit(s[i])
  }

  /** At least seven hexadecimal digits, of either case, and nothing else. */
  lemma LooksLikeShaIff(s: string)
    ensures LooksLikeSha(s) <==> |s| >= 7 && forall i | 0 <= i < |s| :: s[i] in "0123456789abcdefABCDEF"
  {
    var all := "0123456789abcdefABCDEF";
    assert forall k | 0 <= k < |all| :: HexDigit(all[k]);
    forall i | 0 <= i < |s| && HexDigit(s[i]) ensures s[i] in all {
      var n := s[i] as int;
      assert all[if n <= 57 then n - 48 else if n >= 97 then n - 87 else n - 49] == s[i];
    }
  }

  datatype FileReply =
    | Has(text: string)
    | FileStatus(code: nat)
    | FileFailed(error: SourceError)

  function Classify(status: nat): SourceError {
    if 500 <= status < 600 || status == 429 || status == 401 then Transient else Permanent
  }

  /** How GitHub takes one request: what it says, and how long before and after it does. */
  datatype Says = Named(serial: Option<nat>) | SaysNotModified | Page(text: string, tag: Option<Etag>) | Errs(code: nat) | Fails(error: SourceError)
  datatype Moment = Moment(before: nat, says: Says, after: nat)

  /** The head of each branch at each instant, and the files of each commit. GitHub `obeys` sections 13.1.2
      and 15.4.5 of RFC 9110 if it answers 304 only to the tag of the current head. */
  datatype World = World(head: (Key, nat) -> Sha, files: Sha -> Files, obeys: bool, script: nat -> Moment)

  class Github {
    const world: World
    var now: nat
    var calls: nat

    constructor (world: World)
      ensures this.world == world && now == 0 && calls == 0
    {
      this.world, now, calls := world, 0, 0;
    }

    method Pass(d: nat)
      modifies this`now
      ensures now == old(now) + d
    {
      now := now + d;
    }

    /** The (conditional) head request, answered at the instant `at`. A body that looks like a sha is the
        head; anything else may come too. */
    method Head(key: Key, etag: Option<Etag>) returns (r: HeadReply, ghost at: nat)
      modifies this
      ensures var m, sha := world.script(old(calls)), world.head(key, at);
              && calls == old(calls) + 1 && at == old(now) + m.before && now == at + m.after
              && (m.says.Errs? ==> r == Status(Refusal(m.says.code))) && (m.says.Fails? ==> r == SendFailed(m.says.error))
              && (Says304(m.says, world.obeys, etag, sha) ==> r == NotModified)
              && (TellsHead(m.says, world.obeys, etag, sha) ==> r == Body(sha, TagOf(m.says, sha)))
              && (m.says.Page? ==> (r.Body? && !LooksLikeSha(r.text)) || r == Status(500))
      ensures r == NotModified && world.obeys ==> etag.Some? && etag.value.sha == world.head(key, at)
      ensures r.Body? && LooksLikeSha(r.text) ==> r.text == world.head(key, at)
      ensures r.Body? && LooksLikeSha(r.text) && r.etag.Some? ==> r.etag.value.sha == r.text
    {
      var m := world.script(calls);
      calls := calls + 1;
      Pass(m.before);
      at := now;
      var sha := world.head(key, now);
      match m.says {
        case Named(serial) => r := Body(sha, if serial.Some? then Some(Etag(sha, serial.value)) else None);
        case SaysNotModified =>
          r := if !world.obeys || (etag.Some? && etag.value.sha == sha) then NotModified else Body(sha, None);
        case Page(text, tag) => r := if LooksLikeSha(text) then Status(500) else Body(text, tag);
        case Errs(code) => r := Status(Refusal(code));
        case Fails(e) => r := SendFailed(e);
      }
      Pass(m.after);
    }

    /** One `.ez` file of a commit: its text, or 404 exactly if the commit does not have it. */
    method Content(sha: Sha, workflows: bool) returns (r: FileReply)
      modifies this
      ensures var m := world.script(old(calls));
              var file := if workflows then world.files(sha).workflows else world.files(sha).modes;
              && calls == old(calls) + 1 && now == old(now) + m.before + m.after
              && (TellsFile(m.says) ==> r == if file.Some? then Has(file.value) else FileStatus(404))
              && (m.says.Fails? ==> r == FileFailed(m.says.error))
              && (!TellsFile(m.says) && m.says.Errs? ==> r == FileStatus(Refusal(m.says.code)) && r.code != 404)
    {
      var m := world.script(calls);
      calls := calls + 1;
      Pass(m.before + m.after);
      var file := if workflows then world.files(sha).workflows else world.files(sha).modes;
      if m.says.Fails? {
        return FileFailed(m.says.error);
      }
      if m.says.Errs? && Refusal(m.says.code) != 404 {
        return FileStatus(Refusal(m.says.code));
      }
      return if file.Some? then Has(file.value) else FileStatus(404);
    }
  }

  /** An error status is one from 400 on. */
  function Refusal(code: nat): nat {
    if code < 400 then 500 else code
  }

  /** GitHub answers 304 to a request with this tag while `sha` is the head. */
  predicate Says304(says: Says, obeys: bool, tag: Option<Etag>, sha: Sha) {
    says.SaysNotModified? && (!obeys || (tag.Some? && tag.value.sha == sha))
  }

  /** It answers with the head itself. */
  predicate TellsHead(says: Says, obeys: bool, tag: Option<Etag>, sha: Sha) {
    says.Named? || (says.SaysNotModified? && !Says304(says, obeys, tag, sha))
  }

  function TagOf(says: Says, sha: Sha): Option<Etag> {
    if says.Named? && says.serial.Some? then Some(Etag(sha, says.serial.value)) else None
  }

  predicate TellsFile(says: Says) {
    !says.Fails? && (says.Errs? ==> Refusal(says.code) == 404)
  }

  /** `file`: the text, nothing if there is no such file, or why it is not known. */
  method File(g: Github, sha: Sha, workflows: bool) returns (r: Result<Option<string>, SourceError>)
    modifies g
    ensures var says := g.world.script(old(g.calls)).says;
            && g.calls == old(g.calls) + 1 && g.now == old(g.now) + Takes(g.world.script(old(g.calls)))
            && (r.Success? <==> TellsFile(says))
            && (r.Success? ==> r.value == if workflows then g.world.files(sha).workflows else g.world.files(sha).modes)
            && (says.Fails? ==> r == Failure(says.error))
            && (says.Errs? && r.Failure? ==> r == Failure(Classify(Refusal(says.code))))
  {
    var reply := g.Content(sha, workflows);
    match reply
    case Has(text) => return Success(Some(text));
    case FileStatus(code) =>
      if code == 404 {
        return Success(None);
      }
      return Failure(Classify(code));
    case FileFailed(e) => return Failure(e);
  }

  /** Which errors are worth another try: those of the server, too many requests, and a token that ran out. */
  lemma WorthAnotherTry(code: nat)
    ensures Classify(code) == Transient <==> 500 <= code <= 599 || code == 429 || code == 401
  {
  }

  /** A successful fetch: what was the head at an instant between start and end. */
  datatype Fetch = Fetch(key: Key, sha: Sha, start: nat, at: nat, end: nat)

  predicate True(w: World, f: Fetch) {
    f.start <= f.at <= f.end && w.head(f.key, f.at) == f.sha
  }

  predicate Sound(w: World, c: Cached) {
    c.snap.files == w.files(c.snap.sha) && (c.etag.Some? ==> c.etag.value.sha == c.snap.sha)
  }

  function Takes(m: Moment): nat {
    m.before + m.after
  }

  function TagIn(stale: Option<Cached>): Option<Etag> {
    if stale.Some? then stale.value.etag else None
  }

  /** The next request is answered with the head, which looks like a sha. */
  predicate Tells(w: World, calls: nat, key: Key, stale: Option<Cached>, at: nat) {
    TellsHead(w.script(calls).says, w.obeys, TagIn(stale), w.head(key, at)) && LooksLikeSha(w.head(key, at))
  }

  predicate OneRequest(w: World, now: nat, calls: nat, now': nat, calls': nat) {
    calls' == calls + 1 && now' == now + Takes(w.script(calls))
  }

  predicate ThreeRequests(w: World, now: nat, calls: nat, now': nat, calls': nat) {
    && calls' == calls + 3
    && now' == now + Takes(w.script(calls)) + Takes(w.script(calls + 1)) + Takes(w.script(calls + 2))
  }

  /** Some request had no useful answer: an error, a page that is no sha, a 304 where nothing was cached, or no
      answer for a file. */
  predicate Unanswered(w: World, calls: nat, key: Key, stale: Option<Cached>, at: nat) {
    var says := w.script(calls).says;
    || says.Errs? || says.Fails? || says.Page?
    || (Says304(says, w.obeys, TagIn(stale), w.head(key, at)) && stale.None?)
    || (TellsHead(says, w.obeys, TagIn(stale), w.head(key, at)) && !LooksLikeSha(w.head(key, at)))
    || (Tells(w, calls, key, stale, at) && !(stale.Some? && stale.value.snap.sha == w.head(key, at))
        && !(TellsFile(w.script(calls + 1).says) && TellsFile(w.script(calls + 2).says)))
  }

  /** The entry keeps its tag through a 304, and else has the tag of the answer. */
  predicate TagRight(w: World, was: Option<Cached>, now: nat, calls: nat, key: Key, tag: Option<Etag>) {
    var says, sha := w.script(calls).says, w.head(key, now + w.script(calls).before);
    tag == if Says304(says, w.obeys, TagIn(was), sha) then TagIn(was) else TagOf(says, sha)
  }

  function SnapOf(r: Result<Cached, SourceError>): Result<Snapshot, SourceError> {
    match r
    case Success(c) => Success(c.snap)
    case Failure(e) => Failure(e)
  }

  /** What a fetch gives for a key whose entry is too old or missing: the old snapshot after one request if
      GitHub says that it is unchanged or names its sha, the new one after three if the head moved, or a
      failure because some request had no useful answer. */
  predicate Refreshed(w: World, was: Option<Cached>, now: nat, calls: nat, key: Key,
                      r: Result<Snapshot, SourceError>, now': nat, calls': nat)
  {
    var at := now + w.script(calls).before;
    var sha := w.head(key, at);
    && (was.Some? && Says304(w.script(calls).says, w.obeys, was.value.etag, sha) ==>
          r == Success(was.value.snap) && OneRequest(w, now, calls, now', calls'))
    && (was.Some? && Tells(w, calls, key, was, at) && was.value.snap.sha == sha ==>
          r == Success(was.value.snap) && OneRequest(w, now, calls, now', calls'))
    && (Tells(w, calls, key, was, at) && !(was.Some? && was.value.snap.sha == sha)
        && TellsFile(w.script(calls + 1).says) && TellsFile(w.script(calls + 2).says) ==>
          r == Success(Snapshot(sha, w.files(sha))) && ThreeRequests(w, now, calls, now', calls'))
    && (r.Failure? ==> Unanswered(w, calls, key, was, at))
  }

  /** `fetch_snapshot`: one head request, conditional on the stale entry's tag; the files are read again
      only if the head moved. */
  method FetchSnapshot(g: Github, key: Key, stale: Option<Cached>) returns (r: Result<Cached, SourceError>, ghost at: nat)
    requires stale.Some? ==> Sound(g.world, stale.value)
    modifies g
    ensures at == old(g.now) + g.world.script(old(g.calls)).before <= g.now
    ensures r.Success? ==> Sound(g.world, r.value)
    ensures r.Success? && (g.world.obeys || stale.None?) ==> r.value.snap.sha == g.world.head(key, at)
    ensures stale.Some? && Says304(g.world.script(old(g.calls)).says, g.world.obeys, TagIn(stale), g.world.head(key, at)) ==>
              r == Success(stale.value) && OneRequest(g.world, old(g.now), old(g.calls), g.now, g.calls)
    ensures stale.Some? && Tells(g.world, old(g.calls), key, stale, at) && stale.value.snap.sha == g.world.head(key, at) ==>
              && r == Success(Cached(stale.value.snap, TagOf(g.world.script(old(g.calls)).says, g.world.head(key, at))))
              && OneRequest(g.world, old(g.now), old(g.calls), g.now, g.calls)
    ensures Tells(g.world, old(g.calls), key, stale, at) && !(stale.Some? && stale.value.snap.sha == g.world.head(key, at))
            && TellsFile(g.world.script(old(g.calls) + 1).says) && TellsFile(g.world.script(old(g.calls) + 2).says) ==>
              && r == Success(Cached(Snapshot(g.world.head(key, at), g.world.files(g.world.head(key, at))),
                                     TagOf(g.world.script(old(g.calls)).says, g.world.head(key, at))))
              && ThreeRequests(g.world, old(g.now), old(g.calls), g.now, g.calls)
    ensures Refreshed(g.world, stale, old(g.now), old(g.calls), key, SnapOf(r), g.now, g.calls)
    ensures r.Success? ==> TagRight(g.world, stale, old(g.now), old(g.calls), key, r.value.etag)
    ensures g.world.script(old(g.calls)).says.Fails? ==> r == Failure(g.world.script(old(g.calls)).says.error)
    ensures g.world.script(old(g.calls)).says.Errs? ==>
              var code := Refusal(g.world.script(old(g.calls)).says.code);
              r == Failure(if 500 <= code <= 599 || code == 429 || code == 401 then Transient else Permanent)
  {
    var etag := if stale.Some? then stale.value.etag else None;
    var reply;
    reply, at := g.Head(key, etag);
    match reply
    case NotModified =>
      if stale.Some? {
        return Success(stale.value), at;
      }
      return Failure(Transient), at;
    case Status(code) =>
      return Failure(if code == 404 || code == 422 then Permanent else Classify(code)), at;
    case SendFailed(e) =>
      return Failure(e), at;
    case Body(sha, newEtag) =>
      if !LooksLikeSha(sha) {
        return Failure(Transient), at;
      }
      if stale.Some? && stale.value.snap.sha == sha {
        return Success(Cached(stale.value.snap, newEtag)), at;
      }
      var workflows := File(g, sha, true);
      if workflows.Failure? {
        return Failure(workflows.error), at;
      }
      var modes := File(g, sha, false);
      if modes.Failure? {
        return Failure(modes.error), at;
      }
      return Success(Cached(Snapshot(sha, Files(workflows.value, modes.value)), newEtag)), at;
  }

  // ----- the cache -----

  datatype Entry = Entry(cached: Cached, at: nat)

  /** Fetch `i` is the one that filled the slot of `k` with `e`. */
  predicate Backs(fetches: seq<Fetch>, i: nat, k: Key, e: Entry) {
    i < |fetches| && fetches[i].key == k && fetches[i].sha == e.cached.snap.sha && fetches[i].end == e.at
  }

  ghost predicate Backed(fetches: seq<Fetch>, k: Key, e: Entry) {
    exists i: nat :: Backs(fetches, i, k, e)
  }

  lemma BackedStays(fetches: seq<Fetch>, f: Fetch, k: Key, e: Entry)
    requires Backed(fetches, k, e)
    ensures Backed(fetches + [f], k, e)
  {
    var i: nat :| Backs(fetches, i, k, e);
    assert Backs(fetches + [f], i, k, e);
  }

  function Entered(slots: map<Key, Entry>, key: Key): Option<Cached> {
    if key in slots then Some(slots[key].cached) else None
  }

  class SnapshotCache {
    const ttl: nat
    var slots: map<Key, Entry>
    ghost var fetches: seq<Fetch>

    constructor (ttl: nat)
      ensures this.ttl == ttl && slots == map[] && fetches == []
    {
      this.ttl, slots, fetches := ttl, map[], [];
    }

    ghost predicate Valid(g: Github)
      reads this, g
    {
      && (forall i | 0 <= i < |fetches| :: True(g.world, fetches[i]) && fetches[i].end <= g.now)
      && (forall k | k in slots :: Sound(g.world, slots[k].cached) && Backed(fetches, k, slots[k]))
    }

    /** From the moment the caller holds the slot's lock. Whatever comes back are the files of the one commit
        it names, and that commit was the branch's head at an instant of fetch `i`, which is this call's
        own or ended less than the TTL ago, so that the age of the answer is less than the TTL and what the
        fetch took after its head was read; a fresh entry costs no request, and a failure changes nothing. */
    method GetOrFetch(g: Github, key: Key) returns (r: Result<Snapshot, SourceError>, ghost i: nat)
      requires Valid(g) && g.world.obeys
      modifies this, g
      ensures Valid(g)
      ensures r.Success? ==>
                && r.value.files == g.world.files(r.value.sha)
                && i < |fetches| && fetches[i].key == key && fetches[i].sha == r.value.sha
                && g.world.head(key, fetches[i].at) == r.value.sha && fetches[i].start <= fetches[i].at <= fetches[i].end <= g.now
                && (if i == |old(fetches)| then old(g.now) <= fetches[i].start
                    else g.now < fetches[i].end + ttl && g.now - fetches[i].at < ttl + (fetches[i].end - fetches[i].at))
      ensures key in old(slots) && old(g.now) < old(slots)[key].at + ttl ==>
                && r == Success(old(slots)[key].cached.snap) && g.now == old(g.now) && g.calls == old(g.calls)
                && slots == old(slots)
      ensures !(key in old(slots) && old(g.now) < old(slots)[key].at + ttl) ==>
                Refreshed(g.world, Entered(old(slots), key), old(g.now), old(g.calls), key, r, g.now, g.calls)
                && (r.Success? ==> key in slots && slots[key].at == g.now && slots[key].cached.snap == r.value)
      ensures r.Success? && !(key in old(slots) && old(g.now) < old(slots)[key].at + ttl) ==>
                TagRight(g.world, Entered(old(slots), key), old(g.now), old(g.calls), key, slots[key].cached.etag)
      ensures r.Failure? ==> slots == old(slots) && fetches == old(fetches)
      ensures forall k | k in old(slots) && k != key :: k in slots && slots[k] == old(slots)[k]
    {
      i := 0;
      if key in slots && g.now < slots[key].at + ttl {
        i :| Backs(fetches, i, key, slots[key]);
        return Success(slots[key].cached.snap), i;
      }
      var stale := Entered(slots, key);
      ghost var start := g.now;
      var fetched;
      ghost var at;
      fetched, at := FetchSnapshot(g, key, stale);
      if fetched.Failure? {
        return Failure(fetched.error), 0;
      }
      i := |fetches|;
      fetches := fetches + [Fetch(key, fetched.value.snap.sha, start, at, g.now)];
      slots := slots[key := Entry(fetched.value, g.now)];
      assert Backs(fetches, i, key, slots[key]);
      forall k | k in slots && k != key ensures Backed(fetches, k, slots[k]) {
        BackedStays(old(fetches), fetches[i], k, slots[k]);
      }
      return Success(fetched.value.snap), i;
    }
  }

  // ----- older than the TTL -----

  const OLD := "aaaaaaa"
  const NEW := "bbbbbbb"

  /** The branch moves right after the first instant. */
  function MovesAtOnce(key: Key, at: nat): Sha {
    if at == 0 then OLD else NEW
  }

  function SlowFiles(wait: nat): nat -> Moment {
    n => Moment(if n == 1 then wait else 0, Named(None), 0)
  }

  /** The bound is met: the head is read at once, the files take `wait`, and in the last moment of the TTL the
      old commit still comes back, `ttl + wait - 1` after it was the head for the last time. */
  method OlderThanTheTtl(ttl: nat, wait: nat, files: Sha -> Files) returns (s: Snapshot, now: nat)
    requires ttl > 0
    ensures s.sha == OLD && now == ttl + wait - 1
    ensures forall t | 0 < t <= now :: MovesAtOnce("main", t) != s.sha
  {
    s, now := LastMoment("main", ttl, wait, MovesAtOnce, files, SlowFiles(wait));
  }

  /** For any branch whose head at the first instant is a sha, and any files that take `wait`. */
  method LastMoment(key: Key, ttl: nat, wait: nat, head: (Key, nat) -> Sha, files: Sha -> Files, script: nat -> Moment)
    returns (s: Snapshot, now: nat)
    requires ttl > 0 && LooksLikeSha(head(key, 0))
    requires script(0) == script(2) == Moment(0, Named(None), 0) && script(1) == Moment(wait, Named(None), 0)
    ensures s.sha == head(key, 0) && now == ttl + wait - 1
  {
    var g := new Github(World(head, files, true, script));
    var c := new SnapshotCache(ttl);
    TellsAtOnce(g.world, key, wait);
    FirstFetch(g, c, key, wait);
    s := ReusedAfter(g, c, key, ttl - 1);
    now := g.now;
  }

  lemma TellsAtOnce(w: World, key: Key, wait: nat)
    requires LooksLikeSha(w.head(key, 0))
    requires w.script(0) == w.script(2) == Moment(0, Named(None), 0) && w.script(1) == Moment(wait, Named(None), 0)
    ensures TellsAll(w, key, wait)
  {
  }

  /** The head comes at once, the files take `wait`. */
  predicate TellsAll(w: World, key: Key, wait: nat) {
    && w.script(0).before == 0 && Tells(w, 0, key, None, 0) && TellsFile(w.script(1).says) && TellsFile(w.script(2).says)
    && Takes(w.script(0)) + Takes(w.script(1)) + Takes(w.script(2)) == wait
  }

  lemma IsFetched(w: World, key: Key, wait: nat, r: Result<Snapshot, SourceError>, now': nat, calls': nat)
    requires Refreshed(w, None, 0, 0, key, r, now', calls') && TellsAll(w, key, wait)
    ensures r == Success(Snapshot(w.head(key, 0), w.files(w.head(key, 0)))) && now' == wait
  {
  }

  method FirstFetch(g: Github, c: SnapshotCache, key: Key, wait: nat)
    requires c.Valid(g) && g.world.obeys && c.slots == map[] && g.now == 0 && g.calls == 0 && TellsAll(g.world, key, wait)
    modifies g, c
    ensures c.Valid(g) && key in c.slots && c.slots[key].at == g.now == wait
    ensures c.slots[key].cached.snap.sha == g.world.head(key, 0)
  {
    var r, i := c.GetOrFetch(g, key);
    assert Refreshed(g.world, None, 0, 0, key, r, g.now, g.calls);
    IsFetched(g.world, key, wait, r, g.now, g.calls);
  }

  /** A fresh entry comes back for the whole of the TTL. */
  method ReusedAfter(g: Github, c: SnapshotCache, key: Key, d: nat) returns (s: Snapshot)
    requires c.Valid(g) && g.world.obeys && key in c.slots && g.now == c.slots[key].at && d < c.ttl
    modifies g, c
    ensures s == old(c.slots[key].cached.snap) && g.now == old(g.now) + d
  {
    g.Pass(d);
    var r, i := c.GetOrFetch(g, key);
    return r.value;
  }
}
