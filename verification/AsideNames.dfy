/**
 The names of directories that the workspace pruner set aside before deleting them
 (sandbox-container/src/workspace_prune.rs: `is_aside`, `move_aside`).
 */
module AsideNames {
  import opened Wrappers

  const ASIDE := ".enzarb-prune-"

  predicate Digits(s: string) {
    |s| > 0 && forall i | 0 <= i < |s| :: '0' <= s[i] <= '9'
  }

  predicate AsideAt(s: string, i: nat) {
    i + |ASIDE| <= |s| && s[i..i + |ASIDE|] == ASIDE
  }

  /** The last place at or before `i` where ASIDE occurs in `s`. */
  function LastAside(s: string, i: nat): (r: Option<nat>)
    ensures r.Some? ==> r.value <= i && AsideAt(s, r.value)
    ensures forall j: nat | j <= i && AsideAt(s, j) :: r.Some? && j <= r.value
  {
    if AsideAt(s, i) then Some(i) else if i == 0 then None else LastAside(s, i - 1)
  }

  function FirstDash(s: string): (d: nat)
    ensures d <= |s| && (d < |s| ==> s[d] == '-') && forall i | 0 <= i < d :: s[i] != '-'
  {
    if s == "" || s[0] == '-' then 0 else 1 + FirstDash(s[1..])
  }

  /** Two runs of digits with one dash between. */
  predicate TwoNumbers(s: string) {
    var d := FirstDash(s);
    d < |s| && Digits(s[..d]) && Digits(s[d + 1..])
  }

  predicate IsAside(name: string) {
    && |name| > 0 && name[0] == '.'
    && var rest := name[1..];
       match LastAside(rest, |rest|)
       case Some(at) => at > 0 && TwoNumbers(rest[at + |ASIDE|..])
       case None => false
  }

  /** What a directory `base` is renamed to, by process `pid` as its `n`-th. */
  function AsideName(base: string, pid: string, n: string): string {
    "." + base + ASIDE + pid + "-" + n
  }

  /** A name is taken for a set-aside directory exactly if moving some directory aside gives it. */
  lemma IsAsideIff(name: string)
    ensures IsAside(name) <==>
              exists base, pid, n :: base != "" && Digits(pid) && Digits(n) && name == AsideName(base, pid, n)
  {
    if IsAside(name) {
      Taken(name);
    }
    forall base, pid, n | base != "" && Digits(pid) && Digits(n) && name == AsideName(base, pid, n)
      ensures IsAside(name)
    {
      MovedIsAside(base, pid, n);
    }
  }

  lemma Taken(name: string)
    requires IsAside(name)
    ensures exists base, pid, n :: base != "" && Digits(pid) && Digits(n) && name == AsideName(base, pid, n)
  {
    var rest := name[1..];
    var at := LastAside(rest, |rest|).value;
    var tail := rest[at + |ASIDE|..];
    var d := FirstDash(tail);
    assert tail == tail[..d] + "-" + tail[d + 1..];
    assert rest == rest[..at] + ASIDE + tail;
    assert name == AsideName(rest[..at], tail[..d], tail[d + 1..]);
  }

  lemma MovedIsAside(base: string, pid: string, n: string)
    requires base != "" && Digits(pid) && Digits(n)
    ensures IsAside(AsideName(base, pid, n))
  {
    var name, tail := AsideName(base, pid, n), pid + "-" + n;
    var rest := name[1..];
    assert rest == base + (ASIDE + tail);
    assert AsideAt(rest, |base|);
    OnlyOneAside(base, tail, LastAside(rest, |rest|).value, pid, n);
    assert rest[|base| + |ASIDE|..] == tail;
    NumbersAreTwo(pid, n);
  }

  lemma NumbersAreTwo(pid: string, n: string)
    requires Digits(pid) && Digits(n)
    ensures TwoNumbers(pid + "-" + n)
  {
    var tail := pid + "-" + n;
    assert FirstDash(tail) == |pid| by { assert tail[|pid|] == '-' && forall i | 0 <= i < |pid| :: tail[i] == pid[i]; }
    assert tail[..|pid|] == pid && tail[|pid| + 1..] == n;
  }

  /** A run of digits is at least one of the ten. */
  lemma DigitsIff(s: string)
    ensures Digits(s) <==> s != "" && forall i | 0 <= i < |s| :: s[i] in "0123456789"
  {
    var ten := "0123456789";
    forall i | 0 <= i < |s| && '0' <= s[i] <= '9' ensures s[i] in ten {
      assert s[i] == ten[s[i] as int - '0' as int];
    }
    assert forall k | 0 <= k < |ten| :: '0' <= ten[k] <= '9';
  }

  /** `move_aside`: where a directory ends up; one that is aside already stays where it is. */
  function MovedTo(name: string, pid: string, n: string): string {
    if IsAside(name) then name else AsideName(name, pid, n)
  }

  /** Moving aside once is enough, and leaves no directory that is not recognized. */
  lemma MovedOnce(name: string, pid: string, n: string, pid': string, n': string)
    requires name != "" && Digits(pid) && Digits(n)
    ensures IsAside(MovedTo(name, pid, n)) && MovedTo(MovedTo(name, pid, n), pid', n') == MovedTo(name, pid, n)
  {
    MovedIsAside(name, pid, n);
  }

  /** A later occurrence would need another dot. */
  lemma OnlyOneAside(base: string, tail: string, at: nat, pid: string, n: string)
    requires Digits(pid) && Digits(n) && tail == pid + "-" + n
    requires AsideAt(base + (ASIDE + tail), at) && at >= |base|
    ensures at == |base|
  {
    var rest := base + (ASIDE + tail);
    assert rest[at] == rest[at..at + |ASIDE|][0] == '.';
    assert rest[at] == (ASIDE + tail)[at - |base|];
    NoDotAfter(tail, pid, n);
  }

  lemma NoDotAfter(tail: string, pid: string, n: string)
    requires Digits(pid) && Digits(n) && tail == pid + "-" + n
    ensures forall i | 1 <= i < |ASIDE + tail| :: (ASIDE + tail)[i] != '.'
  {
    assert forall i | 0 <= i < |tail| ::
        tail[i] == if i < |pid| then pid[i] else if i == |pid| then '-' else n[i - |pid| - 1];
  }
}
