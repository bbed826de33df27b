/**
 Token encryption and storage in the sandbox proxy (sandbox-proxy/src/credential.rs, store.rs). The
 cipher is perfect: what was sealed opens under the same key and associated data, and nothing else does.
 */
module Credentials {
  import opened Wrappers

  type Bytes = seq<byte>

  /** `enzarb-claude-v1` */
  const AAD_PREFIX: Bytes := [101, 110, 122, 97, 114, 98, 45, 99, 108, 97, 117, 100, 101, 45, 118, 49]

  predicate IdByte(b: byte) {
    Alphanumeric(b) || b == 45 || b == 95 || b == 46
  }

  predicate ValidId(id: Bytes) {
    0 < |id| <= 253 && id[0] != 46 && forall i | 0 <= i < |id| :: IdByte(id[i])
  }

  /** A key id has 1 to 253 bytes, all of them letters, digits, `-`, `_` or `.`, and does not begin with `.`. */
  lemma ValidIdIff(id: Bytes)
    ensures ValidId(id) <==>
              && 1 <= |id| <= 253 && (id[0] as char) != '.'
              && forall i | 0 <= i < |id| :: LetterOrDigit(id[i] as char) || (id[i] as char) in "-_."
  {
    forall i | 0 <= i < |id| ensures IdByte(id[i]) <==> LetterOrDigit(id[i] as char) || (id[i] as char) in "-_." {
      AlphanumericIff(id[i]);
    }
  }

  function Aad(owner: Bytes, keyId: Bytes): Bytes {
    AAD_PREFIX + [0] + owner + [0] + keyId
  }

  /** The associated data tells the owner and the key apart: a valid id has no zero byte, so the last
      zero byte ends the owner, whatever bytes the owner has. */
  lemma AadInjective(o1: Bytes, k1: Bytes, o2: Bytes, k2: Bytes)
    requires ValidId(k1) && ValidId(k2) && Aad(o1, k1) == Aad(o2, k2)
    ensures o1 == o2 && k1 == k2
  {
    var head := AAD_PREFIX + [0];
    var a, b := o1 + [0] + k1, o2 + [0] + k2;
    assert Aad(o1, k1) == head + a && Aad(o2, k2) == head + b;
    assert a == (head + a)[|head|..] && b == (head + b)[|head|..];
    TailsMatch(o1, k1, o2, k2);
  }

  lemma LastZero(o: Bytes, k: Bytes)
    requires ValidId(k)
    ensures var s := o + [0] + k; s[|o|] == 0 && forall i | |o| < i < |s| :: s[i] != 0
  {
    var s := o + [0] + k;
    assert forall i | |o| < i < |s| :: s[i] == k[i - |o| - 1] && IdByte(k[i - |o| - 1]);
  }

  lemma TailsMatch(o1: Bytes, k1: Bytes, o2: Bytes, k2: Bytes)
    requires ValidId(k1) && ValidId(k2) && o1 + [0] + k1 == o2 + [0] + k2
    ensures o1 == o2 && k1 == k2
  {
    LastZero(o1, k1);
    LastZero(o2, k2);
    var a, b := o1 + [0] + k1, o2 + [0] + k2;
    assert |o1| == |o2|;
    assert o1 == a[..|o1|] && k1 == a[|o1| + 1..];
    assert o2 == b[..|o1|] && k2 == b[|o1| + 1..];
  }

  /** With a zero byte in a key id, two pairs would share their associated data. */
  lemma ZeroInAnIdCollides(a: Bytes, b: Bytes, c: Bytes)
    ensures Aad(a + [0] + b, c) == Aad(a, b + [0] + c)
  {
  }

  // ----- the keyring -----

  /** `blob` in the store: sealed under a key with associated data, or bytes that were never sealed. */
  datatype Blob = Sealed(key: nat, nonce: nat, aad: Bytes, token: Bytes) | Garbage(size: nat)

  datatype CryptoError = UnknownKey | Invalid

  datatype KeyringError = BadId(id: Bytes) | ActiveMissing

  datatype Keyring = Keyring(active: Bytes, keys: map<Bytes, nat>) {
    predicate Valid() {
      active in keys && forall id | id in keys :: ValidId(id)
    }

    function Seal(owner: Bytes, token: Bytes, nonce: nat): Blob
      requires Valid()
    {
      Sealed(keys[active], nonce, Aad(owner, active), token)
    }

    function Open(owner: Bytes, keyId: Bytes, blob: Blob): Result<Bytes, CryptoError> {
      if keyId !in keys then Failure(UnknownKey)
      else if blob.Sealed? && blob.key == keys[keyId] && blob.aad == Aad(owner, keyId) then Success(blob.token)
      else Failure(Invalid)
    }
  }

  /** What was sealed for an owner opens for that owner under the active id and for nobody else, nor
      under another id, even one that holds the same key. */
  lemma OpensOnlyAsSealed(ring: Keyring, owner: Bytes, token: Bytes, nonce: nat, owner': Bytes, keyId: Bytes)
    requires ring.Valid()
    ensures ring.Open(owner', keyId, ring.Seal(owner, token, nonce)).Success?
            <==> owner' == owner && keyId == ring.active
    ensures ring.Open(owner, ring.active, ring.Seal(owner, token, nonce)) == Success(token)
  {
    if keyId in ring.keys && Aad(owner', keyId) == Aad(owner, ring.active) {
      AadInjective(owner', keyId, owner, ring.active);
    }
  }

  predicate AllValid(keys: seq<(Bytes, nat)>) {
    forall i | 0 <= i < |keys| :: ValidId(keys[i].0)
  }

  predicate Holds(keys: seq<(Bytes, nat)>, id: Bytes) {
    exists i :: 0 <= i < |keys| && keys[i].0 == id
  }

  /** `from_keys`: the first invalid id is reported, then a missing active key; a repeated id takes the
      last key. */
  method FromKeys(active: Bytes, keys: seq<(Bytes, nat)>) returns (r: Result<Keyring, KeyringError>)
    ensures r.Success? <==> (forall i | 0 <= i < |keys| :: ValidId(keys[i].0)) && exists i :: 0 <= i < |keys| && keys[i].0 == active
    ensures r.Success? ==> forall id | id in r.value.keys :: Holds(keys, id)
    ensures r.Success? ==> r.value.Valid() && r.value.active == active
    ensures r.Success? ==> forall i | 0 <= i < |keys| ::
              keys[i].0 in r.value.keys
              && ((forall j | i < j < |keys| :: keys[j].0 != keys[i].0) ==> r.value.keys[keys[i].0] == keys[i].1)
    ensures r.Failure? && r.error.BadId? ==>
              !ValidId(r.error.id) && exists i :: 0 <= i < |keys| && keys[i].0 == r.error.id && AllValid(keys[..i])
    ensures r == Failure(ActiveMissing) ==> AllValid(keys) && !Holds(keys, active)
  {
    var m := map[];
    for i := 0 to |keys|
      invariant forall j | 0 <= j < i :: ValidId(keys[j].0)
      invariant forall id | id in m :: ValidId(id) && exists j :: 0 <= j < i && keys[j].0 == id
      invariant forall j | 0 <= j < i :: keys[j].0 in m
      invariant forall j | 0 <= j < i && (forall k | j < k < i :: keys[k].0 != keys[j].0) :: m[keys[j].0] == keys[j].1
    {
      var (id, k) := keys[i];
      if !ValidId(id) {
        return Failure(BadId(id));
      }
      m := m[id := k];
    }
    if active !in m {
      return Failure(ActiveMissing);
    }
    return Success(Keyring(active, m));
  }

  // ----- the store -----

  type Owner = Bytes
  datatype Stored = Stored(keyId: Bytes, blob: Blob)
  type Rows = map<Owner, Stored>

  function Stale(rows: Rows, active: Bytes): set<Owner> {
    set o | o in rows && rows[o].keyId != active
  }

  /** What another replica does to the store. */
  datatype Op = Put(owner: Owner, row: Stored, onlyIfAbsent: bool) | Delete(owner: Owner)

  function Apply(rows: Rows, op: Op): Rows {
    match op
    case Put(o, row, onlyIfAbsent) => if onlyIfAbsent && o in rows then rows else rows[o := row]
    case Delete(o) => rows - {o}
  }

  function ApplyAll(rows: Rows, ops: seq<Op>): Rows {
    if ops == [] then rows else Apply(ApplyAll(rows, ops[..|ops| - 1]), ops[|ops| - 1])
  }

  /** The compare-and-set compares the key id alone. */
  function Rekeyed(rows: Rows, o: Owner, oldId: Bytes, row: Stored): (Rows, bool) {
    if o in rows && rows[o].keyId == oldId then (rows[o := row], true) else (rows, false)
  }

  class MemStore {
    var rows: Rows

    constructor ()
      ensures rows == map[]
    {
      rows := map[];
    }

    method PutRow(o: Owner, row: Stored, onlyIfAbsent: bool)
      modifies this
      ensures rows == Apply(old(rows), Put(o, row, onlyIfAbsent)) && o in rows
      ensures rows[o] == if onlyIfAbsent && o in old(rows) then old(rows)[o] else row
      ensures rows.Keys == old(rows).Keys + {o} && forall p | p in old(rows) && p != o :: rows[p] == old(rows)[p]
    {
      if !(onlyIfAbsent && o in rows) {
        rows := rows[o := row];
      }
    }

    method DeleteRow(o: Owner)
      modifies this
      ensures rows == Apply(old(rows), Delete(o)) && o !in rows
      ensures rows.Keys == old(rows).Keys - {o} && forall p | p in rows :: rows[p] == old(rows)[p]
    {
      rows := rows - {o};
    }

    method Get(o: Owner) returns (r: Option<Stored>)
      ensures r == if o in rows then Some(rows[o]) else None
    {
      r := if o in rows then Some(rows[o]) else None;
    }

    method ListStale(active: Bytes) returns (owners: set<Owner>)
      ensures owners == Stale(rows, active)
      ensures forall o :: o in owners <==> o in rows && rows[o].keyId != active
    {
      owners := {};
      var rest := rows.Keys;
      while rest != {}
        invariant rest <= rows.Keys && owners == set o | o in rows.Keys - rest && rows[o].keyId != active
        decreases rest
      {
        var o :| o in rest;
        if rows[o].keyId != active {
          owners := owners + {o};
        }
        rest := rest - {o};
      }
    }

    /** A row under any other key id than `oldId` is never replaced, so neither is one that was migrated or
        put under the new key meanwhile; each success leaves one stale row less. */
    method Rekey(o: Owner, oldId: Bytes, row: Stored) returns (done: bool)
      modifies this
      ensures (rows, done) == Rekeyed(old(rows), o, oldId, row)
      ensures done ==> o in rows && rows[o] == row
      ensures !done ==> rows == old(rows) && !(o in rows && rows[o].keyId == oldId)
      ensures rows.Keys == old(rows).Keys
      ensures forall p | p in rows && (p != o || old(rows)[p].keyId != oldId) :: rows[p] == old(rows)[p]
      ensures oldId != row.keyId ==> Stale(rows, row.keyId) == Stale(old(rows), row.keyId) - (if done then {o} else {})
    {
      if o in rows && rows[o].keyId == oldId {
        rows := rows[o := row];
        return true;
      }
      return false;
    }
  }
}
