/**
 Key rotation (sandbox-proxy/src/rekey.rs) while other replicas put and delete rows: before each call to
 the store a batch of foreign operations takes effect, and the call may fail with or without effect.
 */
module Rekey {
  import opened Wrappers
  import opened Credentials

  const MAX_ATTEMPTS := 3

  datatype Report = Report(migrated: nat, skipped: nat, failed: nat)

  datatype StoreError = StoreError

  /** Whether a call is answered, refused, or takes effect with its answer lost. */
  datatype Reply = Answered | Refused | Lost

  datatype Batch = Batch(ops: seq<Op>, reply: Reply)

  /** A compare-and-set that succeeded: the row read before, the row it replaced, and the new one. */
  datatype Write = Write(owner: Owner, read: Stored, before: Stored, after: Stored)

  function Token(ring: Keyring, o: Owner, row: Stored): Result<Bytes, CryptoError> {
    ring.Open(o, row.keyId, row.blob)
  }

  /** The store as its readers see it, decrypted. */
  predicate SameView(ring: Keyring, a: Rows, b: Rows) {
    a.Keys == b.Keys && forall o | o in a :: Token(ring, o, a[o]) == Token(ring, o, b[o])
  }

  predicate WriteOk(ring: Keyring, w: Write) {
    && w.before.keyId == w.read.keyId != ring.active && w.after.keyId == ring.active
    && Token(ring, w.owner, w.read).Success? && Token(ring, w.owner, w.after) == Token(ring, w.owner, w.read)
  }

  predicate ActiveOps(ops: seq<Op>, active: Bytes) {
    forall i | 0 <= i < |ops| && ops[i].Put? :: ops[i].row.keyId == active
  }

  /** All concurrent puts use the active key. */
  predicate ActiveOnly(script: seq<Batch>, active: Bytes) {
    forall i | 0 <= i < |script| :: ActiveOps(script[i].ops, active)
  }

  predicate OpsWithin(ops: seq<Op>, owners: set<Owner>) {
    forall i | 0 <= i < |ops| :: ops[i].owner in owners
  }

  predicate Within(script: seq<Batch>, owners: set<Owner>) {
    forall i | 0 <= i < |script| :: OpsWithin(script[i].ops, owners)
  }

  function OpOwners(ops: seq<Op>): (r: set<Owner>)
    ensures OpsWithin(ops, r)
  {
    set i | 0 <= i < |ops| :: ops[i].owner
  }

  function Owners(script: seq<Batch>): (r: set<Owner>)
    ensures Within(script, r)
  {
    if script == [] then {} else OpOwners(script[0].ops) + Owners(script[1..])
  }

  lemma {:induction false} ApplyAllWithin(rows: Rows, ops: seq<Op>, owners: set<Owner>)
    requires rows.Keys <= owners && OpsWithin(ops, owners)
    ensures ApplyAll(rows, ops).Keys <= owners
    decreases |ops|
  {
    if ops != [] {
      ApplyAllWithin(rows, ops[..|ops| - 1], owners);
    }
  }

  /** Operations on two stores that look alike leave them alike. */
  lemma {:induction false} ApplyAllKeepsView(ring: Keyring, a: Rows, b: Rows, ops: seq<Op>)
    requires SameView(ring, a, b)
    ensures SameView(ring, ApplyAll(a, ops), ApplyAll(b, ops))
    decreases |ops|
  {
    if ops != [] {
      ApplyAllKeepsView(ring, a, b, ops[..|ops| - 1]);
    }
  }

  /** A row that is stale after puts under the active key was there before, untouched. */
  lemma {:induction false} StaleIsUntouched(rows: Rows, ops: seq<Op>, active: Bytes, o: Owner)
    requires ActiveOps(ops, active) && o in ApplyAll(rows, ops) && ApplyAll(rows, ops)[o].keyId != active
    ensures o in rows && rows[o] == ApplyAll(rows, ops)[o]
    decreases |ops|
  {
    if ops != [] {
      StaleIsUntouched(rows, ops[..|ops| - 1], active, o);
    }
  }

  datatype Outcome = Gone | Migrated | Changed | Failed

  /** One attempt and what came of it. */
  datatype Try = Try(owner: Owner, out: Outcome)

  /** The store as the rotation meets it. `alone` is what it would hold had the rotation not run. */
  class Shared {
    const store: MemStore
    var script: seq<Batch>
    ghost const universe: set<Owner>
    ghost var alone: Rows
    ghost var writes: seq<Write>
    ghost var tries: seq<Try>

    constructor (store: MemStore, script: seq<Batch>)
      ensures this.store == store && this.script == script && alone == store.rows && writes == [] && tries == []
      ensures Valid()
    {
      this.store, this.script := store, script;
      universe := store.rows.Keys + Owners(script);
      alone, writes, tries := store.rows, [], [];
    }

    ghost predicate Valid()
      reads this, store
    {
      store.rows.Keys <= universe && Within(script, universe)
    }

    ghost predicate Unseen(ring: Keyring)
      reads this, store
    {
      ActiveOnly(script, ring.active) && SameView(ring, store.rows, alone)
    }

    /** The next batch of foreign operations; says how the call itself fares. */
    method Interfere(ghost ring: Keyring) returns (reply: Reply, ghost ops: seq<Op>)
      requires Valid()
      modifies this`script, this`alone, store
      ensures Valid() && store.rows == ApplyAll(old(store.rows), ops)
      ensures old(Unseen(ring)) ==> Unseen(ring) && ActiveOps(ops, ring.active)
      ensures old(script) == [] ==> script == [] && ops == [] && reply == Answered
    {
      if script == [] {
        return Answered, [];
      }
      var b := script[0];
      reply, ops := b.reply, b.ops;
      assert OpsWithin(b.ops, universe);
      ApplyAllWithin(store.rows, b.ops, universe);
      if SameView(ring, store.rows, alone) {
        ApplyAllKeepsView(ring, store.rows, alone, b.ops);
      }
      alone := ApplyAll(alone, b.ops);
      script := script[1..];
      var i := 0;
      while i < |b.ops|
        invariant script == old(script)[1..] && alone == ApplyAll(old(alone), b.ops)
        invariant i <= |b.ops| && store.rows == ApplyAll(old(store.rows), b.ops[..i])
      {
        assert b.ops[..i + 1][..i] == b.ops[..i];
        match b.ops[i] {
          case Put(o, row, onlyIfAbsent) => store.PutRow(o, row, onlyIfAbsent);
          case Delete(o) => store.DeleteRow(o);
        }
        i := i + 1;
      }
      assert b.ops[..|b.ops|] == b.ops;
    }
  
    method Get(ghost ring: Keyring, o: Owner) returns (r: Result<Option<Stored>, StoreError>)
      requires Valid()
      modifies this`script, this`alone, store
      ensures Valid()
      ensures old(Unseen(ring)) ==> Unseen(ring)
      ensures r.Success? ==> r.value == if o in store.rows then Some(store.rows[o]) else None
      ensures old(script) == [] ==> script == [] && r.Success? && store.rows == old(store.rows)
    {
      var reply, ops := Interfere(ring);
      if reply != Answered {
        return Failure(StoreError);
      }
      var row := store.Get(o);
      return Success(row);
    }

    /** The compare-and-set of a row that was read as `read`, with the same token sealed anew. */
    method Replace(ghost ring: Keyring, o: Owner, read: Stored, row: Stored) returns (r: Result<bool, StoreError>)
      requires Valid() && o in store.rows && store.rows[o] == read && WriteOk(ring, Write(o, read, read, row))
      modifies this, store
      ensures Valid() && tries == old(tries)
      ensures old(Unseen(ring)) ==> Unseen(ring)
      ensures r == Success(true) ==> writes != old(writes)
      ensures r == Success(false) ==> writes == old(writes)
      ensures writes == old(writes) || Recorded(ring, old(writes), writes, old(Unseen(ring)))
      ensures old(script) == [] ==>
                script == [] && r == Success(true) && store.rows == old(store.rows)[o := row]
    {
      var reply, ops := Interfere(ring);
      if reply == Refused {
        return Failure(StoreError);
      }
      ghost var rows := store.rows;
      var done := store.Rekey(o, read.keyId, row);
      if done {
        if old(Unseen(ring)) {
          StaleIsUntouched(old(store.rows), ops, ring.active, o);
          RekeyKeepsView(ring, rows, alone, o, row);
        }
        writes := writes + [Write(o, read, rows[o], row)];
      }
      return if reply == Lost then Failure(StoreError) else Success(done);
    }

    /** The body of the rotation's loop for one owner. */
    method Migrate(ring: Keyring, o: Owner) returns (out: Outcome)
      requires Valid() && ring.Valid()
      modifies this, store
      ensures Valid()
      ensures old(Unseen(ring)) ==> Unseen(ring)
      ensures out == Migrated ==> writes != old(writes)
      ensures out == Gone || out == Changed ==> writes == old(writes)
      ensures writes == old(writes) || Recorded(ring, old(writes), writes, old(Unseen(ring)))
      ensures old(script) == [] ==> script == [] && Alone(ring, old(store.rows), o, out, store.rows)
      ensures tries == old(tries) + [Try(o, out)]
    {
      out := TryOne(ring, o);
      tries := tries + [Try(o, out)];
    }

    method TryOne(ring: Keyring, o: Owner) returns (out: Outcome)
      requires Valid() && ring.Valid()
      modifies this, store
      ensures Valid() && tries == old(tries)
      ensures old(Unseen(ring)) ==> Unseen(ring)
      ensures out == Migrated ==> writes != old(writes)
      ensures out == Gone || out == Changed ==> writes == old(writes)
      ensures writes == old(writes) || Recorded(ring, old(writes), writes, old(Unseen(ring)))
      ensures old(script) == [] ==> script == [] && Alone(ring, old(store.rows), o, out, store.rows)
    {
      var got := Get(ring, o);
      if got.Failure? {
        return Failed;
      }
      if got.value == None || got.value.value.keyId == ring.active {
        return Gone;
      }
      var read := got.value.value;
      var token := ring.Open(o, read.keyId, read.blob);
      if token.Failure? {
        return Failed;
      }
      var nonce: nat := *;
      var row := Stored(ring.active, ring.Seal(o, token.value, nonce));
      OpensOnlyAsSealed(ring, o, token.value, nonce, o, ring.active);
      var done := Replace(ring, o, read, row);
      return if done.Failure? then Failed else if done.value then Migrated else Changed;
    }
  }

  /** One more write is on record; it replaced the very row that was read if the puts are trusted. */
  predicate Recorded(ring: Keyring, old': seq<Write>, new': seq<Write>, trusted: bool) {
    && |new'| == |old'| + 1 && new'[..|old'|] == old'
    && WriteOk(ring, new'[|old'|]) && (trusted ==> new'[|old'|].before == new'[|old'|].read)
  }

  lemma RekeyKeepsView(ring: Keyring, rows: Rows, alone: Rows, o: Owner, row: Stored)
    requires SameView(ring, rows, alone) && o in rows && Token(ring, o, row) == Token(ring, o, rows[o])
    ensures SameView(ring, rows[o := row], alone)
  {
  }

  /** What one attempt makes of a store that nobody else changes. */
  predicate Alone(ring: Keyring, rows: Rows, o: Owner, out: Outcome, rows': Rows) {
    if o !in rows || rows[o].keyId == ring.active then out == Gone && rows' == rows
    else if Token(ring, o, rows[o]).Failure? then out == Failed && rows' == rows
    else out == Migrated && o in rows' && rows' == rows[o := rows'[o]] && rows'[o].keyId == ring.active
  }

  // ----- the whole run -----

  function Tried(attempts: map<Owner, nat>, o: Owner): nat {
    if o in attempts then attempts[o] else 0
  }

  /** The attempts left, over all owners there can be. */
  ghost function Left(universe: set<Owner>, attempts: map<Owner, nat>): set<(Owner, nat)> {
    set o, k: nat | o in universe && k < MAX_ATTEMPTS && Tried(attempts, o) <= k :: (o, k)
  }

  lemma AttemptSpends(universe: set<Owner>, attempts: map<Owner, nat>, o: Owner)
    requires o in universe && Tried(attempts, o) < MAX_ATTEMPTS
    ensures Left(universe, attempts[o := Tried(attempts, o) + 1]) < Left(universe, attempts)
  {
    var k := Tried(attempts, o);
    assert (o, k) in Left(universe, attempts) && (o, k) !in Left(universe, attempts[o := k + 1]);
  }

  // ----- the attempts on record -----

  function Times(tries: seq<Try>, o: Owner): nat {
    if tries == [] then 0 else Times(tries[..|tries| - 1], o) + (if tries[|tries| - 1].owner == o then 1 else 0)
  }

  function FailedIn(tries: seq<Try>): set<Owner> {
    set i | 0 <= i < |tries| && tries[i].out == Failed :: tries[i].owner
  }

  function MigratedIn(tries: seq<Try>): nat {
    if tries == [] then 0
    else MigratedIn(tries[..|tries| - 1]) + (if tries[|tries| - 1].out == Migrated then 1 else 0)
  }

  /** The books agree with the record, and nobody was tried again after a failure. */
  ghost predicate Booked(tries: seq<Try>, t: Tally) {
    && (forall o :: Tried(t.attempts, o) == Times(tries, o))
    && t.failed == FailedIn(tries) && t.migrated == MigratedIn(tries)
    && forall i, j | 0 <= i < j < |tries| && tries[i].out == Failed :: tries[j].owner != tries[i].owner
  }

  datatype Tally = Tally(attempts: map<Owner, nat>, failed: set<Owner>, migrated: nat)

  /** The books after one more attempt. */
  function Book(t: Tally, o: Owner, out: Outcome): Tally {
    Tally(t.attempts[o := Tried(t.attempts, o) + 1], if out == Failed then t.failed + {o} else t.failed,
          if out == Migrated then t.migrated + 1 else t.migrated)
  }

  lemma BookedOneMore(tries: seq<Try>, t: Tally, o: Owner, out: Outcome)
    requires Booked(tries, t) && o !in t.failed
    ensures Booked(tries + [Try(o, out)], Book(t, o, out))
  {
    var more, t' := tries + [Try(o, out)], Book(t, o, out);
    assert more[..|tries|] == tries;
    forall p ensures Tried(t'.attempts, p) == Times(more, p) {
      assert Tried(t.attempts, p) == Times(tries, p);
    }
    assert FailedIn(more) == FailedIn(tries) + (if out == Failed then {o} else {}) by {
      assert forall i | 0 <= i < |tries| :: more[i] == tries[i];
      assert more[|tries|] == Try(o, out);
    }
    forall i, j | 0 <= i < j < |more| && more[i].out == Failed ensures more[j].owner != more[i].owner {
      assert more[i] == tries[i];
      if j == |tries| {
        assert tries[i].owner in FailedIn(tries);
      }
    }
  }

  function Unreadable(ring: Keyring, rows: Rows): set<Owner> {
    set o | o in Stale(rows, ring.active) && Token(ring, o, rows[o]).Failure?
  }

  /** The log only grows, by good writes. */
  predicate Grown(ring: Keyring, log: seq<Write>, log': seq<Write>, trusted: bool) {
    && log <= log'
    && forall i | |log| <= i < |log'| :: WriteOk(ring, log'[i]) && (trusted ==> log'[i].before == log'[i].read)
  }

  lemma GrownByOne(ring: Keyring, log: seq<Write>, mid: seq<Write>, end: seq<Write>, trusted: bool)
    requires Grown(ring, log, mid, trusted) && (end == mid || Recorded(ring, mid, end, trusted))
    ensures Grown(ring, log, end, trusted)
  {
    if end != mid {
      assert end == mid + [end[|mid|]];
    }
  }

  method ListStale(ghost ring: Keyring, sh: Shared, active: Bytes) returns (r: Result<set<Owner>, StoreError>)
    requires sh.Valid()
    modifies sh`script, sh`alone, sh.store
    ensures sh.Valid()
    ensures old(sh.Unseen(ring)) ==> sh.Unseen(ring)
    ensures r.Success? ==> r.value == Stale(sh.store.rows, active)
    ensures sh.writes == old(sh.writes) && sh.tries == old(sh.tries)
    ensures old(sh.script) == [] ==> sh.script == [] && r.Success? && sh.store.rows == old(sh.store.rows)
  {
    var reply, ops := sh.Interfere(ring);
    if reply != Answered {
      return Failure(StoreError);
    }
    var stale := sh.store.ListStale(active);
    return Success(stale);
  }

  /** How far a pass got that nobody interferes with: the rows in `rest` are as they were at first, of the
      others only unreadable ones are still stale. */
  ghost predicate Progress(ring: Keyring, first: Rows, rows: Rows, rest: set<Owner>, newlyFailed: set<Owner>, migrated: nat) {
    var stale, bad := Stale(first, ring.active), Unreadable(ring, first);
    && rest <= stale && Stale(rows, ring.active) == rest + bad
    && (forall o | o in rest :: o in rows && rows[o] == first[o])
    && newlyFailed == bad - rest && migrated == |stale - rest - bad|
  }

  lemma ProgressStarts(ring: Keyring, first: Rows)
    ensures Progress(ring, first, first, Stale(first, ring.active), {}, 0)
  {
    var stale, bad := Stale(first, ring.active), Unreadable(ring, first);
    assert bad <= stale && stale + bad == stale && bad - stale == {} && stale - stale - bad == {};
  }

  lemma ProgressGoesOn(ring: Keyring, first: Rows, rows: Rows, rest: set<Owner>, newlyFailed: set<Owner>, migrated: nat,
                       o: Owner, out: Outcome, rows': Rows)
    requires Progress(ring, first, rows, rest, newlyFailed, migrated) && o in rest && Alone(ring, rows, o, out, rows')
    ensures out == Failed || out == Migrated
    ensures Progress(ring, first, rows', rest - {o},
                     if out == Failed then newlyFailed + {o} else newlyFailed, if out == Migrated then migrated + 1 else migrated)
  {
    var stale, bad := Stale(first, ring.active), Unreadable(ring, first);
    assert rows[o] == first[o] && o in stale && (o in bad <==> Token(ring, o, rows[o]).Failure?);
    TakenFrom(stale, bad, rest, o);
    if o !in bad {
      StaleWithout(rows, ring.active, o, rows');
    }
  }

  lemma TakenFrom(stale: set<Owner>, bad: set<Owner>, rest: set<Owner>, o: Owner)
    requires o in rest && rest <= stale
    ensures o in bad ==> bad - (rest - {o}) == bad - rest + {o} && rest - {o} + bad == rest + bad
                         && stale - (rest - {o}) - bad == stale - rest - bad
    ensures o !in bad ==> bad - (rest - {o}) == bad - rest && rest - {o} + bad == rest + bad - {o}
                          && |stale - (rest - {o}) - bad| == |stale - rest - bad| + 1
  {
    if o !in bad {
      assert stale - (rest - {o}) - bad == stale - rest - bad + {o};
    }
  }

  lemma StaleWithout(rows: Rows, active: Bytes, o: Owner, rows': Rows)
    requires o in rows' && rows' == rows[o := rows'[o]] && rows'[o].keyId == active
    ensures Stale(rows', active) == Stale(rows, active) - {o}
  {
  }

  /** The books are right about the attempts from `base` on. */
  ghost predicate BooksKept(tries: seq<Try>, base: nat, t: Tally) {
    base <= |tries| && Booked(tries[base..], t)
  }

  /** Since `t` each of `done` had one attempt more, of which `failed` failed. */
  ghost predicate Passed(t: Tally, t': Tally, done: set<Owner>, failed: set<Owner>, migrated: nat) {
    && (forall o :: Tried(t'.attempts, o) == Tried(t.attempts, o) + (if o in done then 1 else 0))
    && t'.failed == t.failed + failed && failed <= done && t'.migrated == t.migrated + migrated
  }

  lemma PassedOneMore(t: Tally, t': Tally, todo: set<Owner>, rest: set<Owner>, failed: set<Owner>, migrated: nat, o: Owner,
                      out: Outcome)
    requires Passed(t, t', todo - rest, failed, migrated) && o in rest && rest <= todo
    ensures Passed(t, Book(t', o, out), todo - (rest - {o}), if out == Failed then failed + {o} else failed,
                   if out == Migrated then migrated + 1 else migrated)
  {
    var t2 := Book(t', o, out);
    assert todo - (rest - {o}) == todo - rest + {o};
    forall p ensures Tried(t2.attempts, p) == Tried(t.attempts, p) + (if p in todo - (rest - {o}) then 1 else 0) {
      assert Tried(t'.attempts, p) == Tried(t.attempts, p) + (if p in todo - rest then 1 else 0);
    }
  }

  lemma StaysOpen(t: Tally, t': Tally, todo: set<Owner>, rest: set<Owner>, failed: set<Owner>, migrated: nat, o: Owner)
    requires Passed(t, t', todo - rest, failed, migrated) && o in rest && rest <= todo
    requires forall p | p in todo :: Tried(t.attempts, p) < MAX_ATTEMPTS && p !in t.failed
    ensures Tried(t'.attempts, o) < MAX_ATTEMPTS && o !in t'.failed
  {
    assert Tried(t'.attempts, o) == Tried(t.attempts, o) + (if o in todo - rest then 1 else 0);
  }

  /** One attempt, put down in the books. */
  method TryAndBook(ring: Keyring, sh: Shared, o: Owner, t: Tally, ghost base: nat) returns (t': Tally, ghost out: Outcome)
    requires sh.Valid() && ring.Valid() && o in sh.universe && Tried(t.attempts, o) < MAX_ATTEMPTS && o !in t.failed
    requires BooksKept(sh.tries, base, t)
    modifies sh, sh.store
    ensures sh.Valid() && t' == Book(t, o, out)
    ensures old(sh.Unseen(ring)) ==> sh.Unseen(ring)
    ensures sh.writes == old(sh.writes) || Recorded(ring, old(sh.writes), sh.writes, old(sh.Unseen(ring)))
    ensures old(sh.tries) <= sh.tries && BooksKept(sh.tries, base, t')
    ensures Left(sh.universe, t'.attempts) < Left(sh.universe, t.attempts)
    ensures old(sh.script) == [] ==> sh.script == [] && Alone(ring, old(sh.store.rows), o, out, sh.store.rows)
  {
    AttemptSpends(sh.universe, t.attempts, o);
    ghost var tries := sh.tries;
    var came := sh.Migrate(ring, o);
    BookedOneMore(tries[base..], t, o, came);
    assert sh.tries[base..] == tries[base..] + [Try(o, came)];
    t', out := Book(t, o, came), came;
  }

  /** How a pass began: what there was to do, the books, the rows and the log then. */
  datatype Begun = Begun(todo: set<Owner>, t: Tally, base: nat, rows: Rows, log: seq<Write>, trusted: bool, calm: bool)

  /** Where a pass is when the owners in `rest` are still to do. */
  ghost predicate AtRest(ring: Keyring, sh: Shared, b: Begun, rest: set<Owner>, t: Tally, failed: set<Owner>, migrated: nat)
    reads sh, sh.store
  {
    && sh.Valid() && rest <= b.todo && (b.trusted ==> sh.Unseen(ring)) && Grown(ring, b.log, sh.writes, b.trusted)
    && BooksKept(sh.tries, b.base, t) && Passed(b.t, t, b.todo - rest, failed, migrated)
    && (b.calm ==> sh.script == [] && Progress(ring, b.rows, sh.store.rows, rest, failed, migrated))
  }

  lemma PassStarts(ring: Keyring, sh: Shared, b: Begun)
    requires sh.Valid() && (b.trusted ==> sh.Unseen(ring)) && b.log == sh.writes && b.rows == sh.store.rows
    requires BooksKept(sh.tries, b.base, b.t) && (b.calm ==> sh.script == [] && b.todo == Stale(b.rows, ring.active))
    ensures AtRest(ring, sh, b, b.todo, b.t, {}, 0)
  {
    ProgressStarts(ring, b.rows);
    assert b.todo - b.todo == {};
  }

  predicate MayTry(b: Begun) {
    forall p | p in b.todo :: Tried(b.t.attempts, p) < MAX_ATTEMPTS && p !in b.t.failed
  }

  method OneOfPass(ring: Keyring, sh: Shared, ghost b: Begun, ghost rest: set<Owner>, o: Owner, t: Tally,
                   ghost failed: set<Owner>, ghost migrated: nat)
    returns (t': Tally, ghost failed': set<Owner>, ghost migrated': nat)
    requires ring.Valid() && o in rest && b.todo <= sh.universe && MayTry(b) && AtRest(ring, sh, b, rest, t, failed, migrated)
    modifies sh, sh.store
    ensures AtRest(ring, sh, b, rest - {o}, t', failed', migrated')
    ensures Left(sh.universe, t'.attempts) < Left(sh.universe, t.attempts)
  {
    StaysOpen(b.t, t, b.todo, rest, failed, migrated, o);
    ghost var rows, writes := sh.store.rows, sh.writes;
    ghost var out;
    t', out := TryAndBook(ring, sh, o, t, b.base);
    GrownByOne(ring, b.log, writes, sh.writes, b.trusted);
    PassedOneMore(b.t, t, b.todo, rest, failed, migrated, o, out);
    if b.calm {
      ProgressGoesOn(ring, b.rows, rows, rest, failed, migrated, o, out, sh.store.rows);
    }
    failed' := if out == Failed then failed + {o} else failed;
    migrated' := if out == Migrated then migrated + 1 else migrated;
  }

  /** What a pass that began so comes to: each owner to do had one attempt, on the books; the log grew by good
      writes; and if nobody interfered, the rows are migrated but for the unreadable ones. */
  ghost predicate PassOver(ring: Keyring, sh: Shared, b: Begun, t: Tally, failed: set<Owner>, migrated: nat)
    reads sh, sh.store
  {
    && sh.Valid() && (b.trusted ==> sh.Unseen(ring)) && Grown(ring, b.log, sh.writes, b.trusted)
    && BooksKept(sh.tries, b.base, t) && Passed(b.t, t, b.todo, failed, migrated)
    && (b.calm ==> sh.script == [] && Progress(ring, b.rows, sh.store.rows, {}, failed, migrated))
  }

  /** One pass over the owners to do, in any order. */
  method Pass(ring: Keyring, sh: Shared, todo: set<Owner>, t: Tally, ghost b: Begun)
    returns (t': Tally, ghost failed: set<Owner>, ghost migrated: nat)
    requires sh.Valid() && ring.Valid() && todo <= sh.universe
    requires forall o | o in todo :: Tried(t.attempts, o) < MAX_ATTEMPTS && o !in t.failed
    requires b == Begun(todo, t, b.base, sh.store.rows, sh.writes, b.trusted, b.calm) && BooksKept(sh.tries, b.base, t)
    requires b.trusted ==> sh.Unseen(ring)
    requires b.calm ==> sh.script == [] && todo == Stale(sh.store.rows, ring.active)
    modifies sh, sh.store
    ensures PassOver(ring, sh, b, t', failed, migrated)
    ensures if todo == {} then t' == t else Left(sh.universe, t'.attempts) < Left(sh.universe, t.attempts)
  {
    t', failed, migrated := t, {}, 0;
    var rest := todo;
    PassStarts(ring, sh, b);
    while rest != {}
      invariant AtRest(ring, sh, b, rest, t', failed, migrated)
      invariant if rest == todo then t' == t else Left(sh.universe, t'.attempts) < Left(sh.universe, t.attempts)
      decreases rest
    {
      var o :| o in rest;
      t', failed, migrated := OneOfPass(ring, sh, b, rest, o, t', failed, migrated);
      rest := rest - {o};
    }
    assert b.todo - {} == b.todo;
  }

  function ToDo(stale: set<Owner>, failed: set<Owner>, attempts: map<Owner, nat>): set<Owner> {
    set o | o in stale && o !in failed && Tried(attempts, o) < MAX_ATTEMPTS
  }

  /** Where a rotation that nobody interferes with is between passes. */
  ghost predicate Calm(ring: Keyring, first: Rows, rows: Rows, failed: set<Owner>, migrated: nat, attempts: map<Owner, nat>) {
    || (rows == first && failed == {} && migrated == 0 && attempts == map[])
    || Progress(ring, first, rows, {}, failed, migrated)
  }

  lemma CalmEnds(ring: Keyring, first: Rows, rows: Rows, failed: set<Owner>, migrated: nat, attempts: map<Owner, nat>)
    requires Calm(ring, first, rows, failed, migrated, attempts)
    requires ToDo(Stale(rows, ring.active), failed, attempts) == {}
    ensures Stale(rows, ring.active) == failed == Unreadable(ring, first)
    ensures migrated + |failed| == |Stale(first, ring.active)|
  {
    if rows == first && failed == {} && migrated == 0 && attempts == map[] {
      assert ToDo(Stale(first, ring.active), failed, attempts) == Stale(first, ring.active);
    } else {
      ProgressEnds(ring, first, rows, failed, migrated);
    }
  }

  lemma ProgressEnds(ring: Keyring, first: Rows, rows: Rows, failed: set<Owner>, migrated: nat)
    requires Progress(ring, first, rows, {}, failed, migrated)
    ensures Stale(rows, ring.active) == failed == Unreadable(ring, first)
    ensures migrated + |failed| == |Stale(first, ring.active)|
  {
    SetsEnd(Stale(first, ring.active), Unreadable(ring, first));
  }

  lemma SetsEnd(stale: set<Owner>, bad: set<Owner>)
    requires bad <= stale
    ensures {} + bad == bad && bad - {} == bad && |stale - {} - bad| + |bad| == |stale|
  {
    assert stale - {} - bad == stale - bad;
    assert stale == (stale - bad) + bad;
  }

  /** How the rotation began: the rows, the log, whether the other puts can be trusted, and whether
      nobody interferes. */
  datatype Start = Start(rows: Rows, log: seq<Write>, tries: nat, trusted: bool, calm: bool)

  ghost predicate Safe(ring: Keyring, sh: Shared, start: Start)
    reads sh, sh.store
  {
    sh.Valid() && (start.trusted ==> sh.Unseen(ring)) && Grown(ring, start.log, sh.writes, start.trusted)
  }

  ghost predicate AtMostThree(t: Tally) {
    forall o :: Tried(t.attempts, o) <= MAX_ATTEMPTS
  }

  lemma StillAtMostThree(t: Tally, t': Tally, stale: set<Owner>, failed: set<Owner>, migrated: nat)
    requires AtMostThree(t) && Passed(t, t', ToDo(stale, t.failed, t.attempts), failed, migrated)
    ensures AtMostThree(t')
  {
    forall o ensures Tried(t'.attempts, o) <= MAX_ATTEMPTS {
      assert Tried(t.attempts, o) <= MAX_ATTEMPTS;
    }
  }

  ghost predicate Between(ring: Keyring, sh: Shared, start: Start, t: Tally, todo: set<Owner>)
    reads sh, sh.store
  {
    && Safe(ring, sh, start) && todo == ToDo(Stale(sh.store.rows, ring.active), t.failed, t.attempts)
    && BooksKept(sh.tries, start.tries, t)
    && AtMostThree(t)
    && (start.calm ==> sh.script == [] && Calm(ring, start.rows, sh.store.rows, t.failed, t.migrated, t.attempts))
  }

  /** A pass is over, and nobody looked at the store since. */
  ghost predicate AfterPass(ring: Keyring, sh: Shared, start: Start, t: Tally)
    reads sh, sh.store
  {
    && Safe(ring, sh, start) && BooksKept(sh.tries, start.tries, t) && AtMostThree(t)
    && (start.calm ==> sh.script == [] && Progress(ring, start.rows, sh.store.rows, {}, t.failed, t.migrated))
  }

  method RoundPass(ring: Keyring, sh: Shared, ghost start: Start, t: Tally, todo: set<Owner>) returns (t': Tally)
    requires ring.Valid() && Between(ring, sh, start, t, todo) && todo != {}
    modifies sh, sh.store
    ensures AfterPass(ring, sh, start, t')
    ensures Left(sh.universe, t'.attempts) < Left(sh.universe, t.attempts)
  {
    ghost var rows, writes := sh.store.rows, sh.writes;
    ghost var failed, migrated;
    ghost var b := Begun(todo, t, start.tries, rows, writes, start.trusted,
                         start.calm && todo == Stale(rows, ring.active));
    t', failed, migrated := Pass(ring, sh, todo, t, b);
    GrownByMany(ring, start.log, writes, sh.writes, start.trusted);
    StillAtMostThree(t, t', Stale(rows, ring.active), failed, migrated);
    if start.calm {
      CalmGoesOn(ring, start.rows, rows, t.failed, t.migrated, t.attempts, sh.store.rows, failed, migrated);
    }
  }

  method Round(ring: Keyring, sh: Shared, ghost start: Start, t: Tally, todo: set<Owner>)
    returns (t': Tally, next: Result<set<Owner>, StoreError>, ghost stale: set<Owner>)
    requires ring.Valid() && Between(ring, sh, start, t, todo) && todo != {}
    modifies sh, sh.store
    ensures Safe(ring, sh, start)
    ensures start.calm ==> next.Success?
    ensures next.Success? ==> Between(ring, sh, start, t', next.value) && next.value == ToDo(stale, t'.failed, t'.attempts)
    ensures Left(sh.universe, t'.attempts) < Left(sh.universe, t.attempts)
  {
    t' := RoundPass(ring, sh, start, t, todo);
    var got := ListStale(ring, sh, ring.active);
    stale := if got.Success? then got.value else {};
    next := if got.Failure? then got else Success(ToDo(got.value, t'.failed, t'.attempts));
  }

  /** What the record says of a rotation that came to an end: each owner had at most three attempts, none after
      a failed one; the report counts the migrations and the owners that failed; and of the rows that were
      stale when it stopped trying, each had failed or had had its three attempts. */
  ghost predicate Accounted(tries: seq<Try>, report: Report, stale: set<Owner>) {
    && (forall o :: Times(tries, o) <= 3)
    && (forall i, j | 0 <= i < j < |tries| && tries[i].out == Failed :: tries[j].owner != tries[i].owner)
    && report.migrated == MigratedIn(tries) && report.failed == |FailedIn(tries)|
    && forall o | o in stale :: o in FailedIn(tries) || Times(tries, o) == 3
  }

  lemma BooksAreRight(tries: seq<Try>, t: Tally, stale: set<Owner>, skipped: nat)
    requires Booked(tries, t) && AtMostThree(t) && ToDo(stale, t.failed, t.attempts) == {}
    ensures Accounted(tries, Report(t.migrated, skipped, |t.failed|), stale)
  {
    forall o ensures Times(tries, o) <= 3 {
      assert Tried(t.attempts, o) == Times(tries, o);
    }
    forall o | o in stale ensures o in FailedIn(tries) || Times(tries, o) == 3 {
      assert o !in ToDo(stale, t.failed, t.attempts);
      assert Tried(t.attempts, o) == Times(tries, o);
    }
  }

  /** The whole rotation. It ends, whatever the others do; it replaces no row under the active key; as long
      as the others put under the active key only, readers see what they would have seen had it not run;
      if nobody interferes, every stale row is migrated or counted as failed; and if somebody does, `stale`, what
      was left when it stopped trying, had failed or had three attempts each. */
  method Run(ring: Keyring, sh: Shared) returns (r: Result<Report, StoreError>, ghost stale: set<Owner>)
    requires sh.Valid() && ring.Valid()
    modifies sh, sh.store
    ensures Grown(ring, old(sh.writes), sh.writes, old(sh.Unseen(ring)))
    ensures old(sh.Unseen(ring)) ==> SameView(ring, sh.store.rows, sh.alone)
    ensures r.Success? ==> |old(sh.tries)| <= |sh.tries| && Accounted(sh.tries[|old(sh.tries)|..], r.value, stale)
    ensures old(sh.script) == [] ==>
              && r.Success? && r.value.skipped == 0
              && r.value.migrated + r.value.failed == |Stale(old(sh.store.rows), ring.active)|
              && r.value.failed == |Unreadable(ring, old(sh.store.rows))|
              && Stale(sh.store.rows, ring.active) == Unreadable(ring, old(sh.store.rows))
  {
    ghost var start := Start(sh.store.rows, sh.writes, |sh.tries|, sh.Unseen(ring), sh.script == []);
    var t := Tally(map[], {}, 0);
    var got := ListStale(ring, sh, ring.active);
    stale := {};
    if got.Failure? {
      return Failure(got.error), stale;
    }
    var todo := ToDo(got.value, t.failed, t.attempts);
    stale := got.value;
    while todo != {}
      invariant Between(ring, sh, start, t, todo) && todo == ToDo(stale, t.failed, t.attempts)
      decreases Left(sh.universe, t.attempts)
    {
      var t', next;
      t', next, stale := Round(ring, sh, start, t, todo);
      if next.Failure? {
        return Failure(next.error), stale;
      }
      t, todo := t', next.value;
    }
    BooksAreRight(sh.tries[start.tries..], t, stale, 0);
    if start.calm {
      CalmEnds(ring, start.rows, sh.store.rows, t.failed, t.migrated, t.attempts);
    }
    got := ListStale(ring, sh, ring.active);
    if got.Failure? {
      return Failure(got.error), stale;
    }
    return Success(Report(t.migrated, |got.value - t.failed|, |t.failed|)), stale;
  }

  lemma GrownByMany(ring: Keyring, log: seq<Write>, mid: seq<Write>, end: seq<Write>, trusted: bool)
    requires Grown(ring, log, mid, trusted) && Grown(ring, mid, end, trusted)
    ensures Grown(ring, log, end, trusted)
  {
  }

  lemma CalmGoesOn(ring: Keyring, first: Rows, rows: Rows, failed: set<Owner>, migrated: nat, attempts: map<Owner, nat>,
                   rows': Rows, newlyFailed: set<Owner>, n: nat)
    requires Calm(ring, first, rows, failed, migrated, attempts)
    requires ToDo(Stale(rows, ring.active), failed, attempts) != {}
    requires ToDo(Stale(rows, ring.active), failed, attempts) == Stale(rows, ring.active) ==>
               Progress(ring, rows, rows', {}, newlyFailed, n)
    ensures Progress(ring, first, rows', {}, failed + newlyFailed, migrated + n)
  {
    assert ToDo(Stale(rows, ring.active), failed, attempts) == Stale(rows, ring.active);
    assert {} + newlyFailed == newlyFailed;
  }

  // ----- the compare-and-set on the key id alone -----

  /** One attempt: the row is read, others act, the compare-and-set is made. */
  function Attempt(ring: Keyring, rows: Rows, o: Owner, ops: seq<Op>, nonce: nat): Rows
    requires ring.Valid() && o in rows && Token(ring, o, rows[o]).Success?
  {
    var row := Stored(ring.active, ring.Seal(o, Token(ring, o, rows[o]).value, nonce));
    Rekeyed(ApplyAll(rows, ops), o, rows[o].keyId, row).0
  }

  /** An attempt takes a token away exactly if the others leave a row under the key id that was read and
      with another token: the compare-and-set does not look at the ciphertext. */
  lemma TokenIsLostIff(ring: Keyring, rows: Rows, o: Owner, ops: seq<Op>, nonce: nat)
    requires ring.Valid() && o in rows && rows[o].keyId != ring.active && Token(ring, o, rows[o]).Success?
    ensures var theirs := ApplyAll(rows, ops);
            SameView(ring, Attempt(ring, rows, o, ops, nonce), theirs)
            <==> !(o in theirs && theirs[o].keyId == rows[o].keyId && Token(ring, o, theirs[o]) != Token(ring, o, rows[o]))
  {
    var theirs, token := ApplyAll(rows, ops), Token(ring, o, rows[o]).value;
    OpensOnlyAsSealed(ring, o, token, nonce, o, ring.active);
    var row := Stored(ring.active, ring.Seal(o, token, nonce));
    assert Token(ring, o, row) == Success(token);
    if o in theirs && theirs[o].keyId == rows[o].keyId {
      assert Attempt(ring, rows, o, ops, nonce) == theirs[o := row];
    }
  }

  /** So a token that a replica with the old key still active puts in between is overwritten. */
  lemma OldKeyPutIsLost(ring: Keyring, o: Owner, old': Bytes, t1: Bytes, t2: Bytes)
    requires ring.Valid() && old' in ring.keys && old' != ring.active && t1 != t2
    ensures var before := ring.(active := old');
            var rows := map[o := Stored(old', before.Seal(o, t1, 0))];
            var put := Put(o, Stored(old', before.Seal(o, t2, 1)), false);
            var after := Attempt(ring, rows, o, [put], 2);
            o in after && Token(ring, o, after[o]) == Success(t1)
  {
    var before := ring.(active := old');
    var rows := map[o := Stored(old', before.Seal(o, t1, 0))];
    var ops := [Put(o, Stored(old', before.Seal(o, t2, 1)), false)];
    assert ops[..0] == [] && ApplyAll(rows, ops) == Apply(rows, ops[0]);
  }
}
