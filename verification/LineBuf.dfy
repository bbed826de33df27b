/**
 Splitting a byte stream into capped lines (sandbox-container/src/chat.rs, `LineBuf`).
 */
module LineBuf {
  import opened Wrappers

  const NEWLINE: byte := 10

  type Line = seq<byte>

  // ----- the stream as a whole -----

  /** The complete lines of a text, without their newlines. */
  function Lines(s: seq<byte>): seq<Line> {
    if s == [] then []
    else
      var front, last := s[..|s| - 1], s[|s| - 1];
      if last == NEWLINE then Lines(front) + [Trailing(front)] else Lines(front)
  }

  /** What follows the last newline. */
  function Trailing(s: seq<byte>): Line {
    if s == [] then []
    else
      var front, last := s[..|s| - 1], s[|s| - 1];
      if last == NEWLINE then [] else Trailing(front) + [last]
  }

  function Joined(lines: seq<Line>): seq<byte> {
    if lines == [] then [] else Joined(lines[..|lines| - 1]) + lines[|lines| - 1] + [NEWLINE]
  }

  /** `Lines` and `Trailing` are the one way to cut a text at its newlines. */
  lemma {:induction false} CutAtNewlines(s: seq<byte>)
    ensures Joined(Lines(s)) + Trailing(s) == s
    ensures NEWLINE !in Trailing(s) && forall l | l in Lines(s) :: NEWLINE !in l
  {
    if s != [] {
      var front, last := s[..|s| - 1], s[|s| - 1];
      CutAtNewlines(front);
      assert s == front + [last];
      if last == NEWLINE {
        var lines := Lines(front) + [Trailing(front)];
        assert lines[..|lines| - 1] == Lines(front);
      }
    }
  }

  lemma {:induction false} CutIsUnique(lines: seq<Line>, trailing: Line)
    requires NEWLINE !in trailing && forall l | l in lines :: NEWLINE !in l
    ensures Lines(Joined(lines) + trailing) == lines && Trailing(Joined(lines) + trailing) == trailing
    decreases |lines|, |trailing|
  {
    var s := Joined(lines) + trailing;
    if trailing != [] {
      var t := trailing[..|trailing| - 1];
      CutIsUnique(lines, t);
      assert s[..|s| - 1] == Joined(lines) + t;
    } else if lines != [] {
      var ls, l := lines[..|lines| - 1], lines[|lines| - 1];
      CutIsUnique(ls, l);
      assert s[..|s| - 1] == Joined(ls) + l;
      assert lines == ls + [l];
    }
  }

  predicate AsciiWhitespace(b: byte) {
    b == 0x20 || b == 0x09 || b == 0x0A || b == 0x0C || b == 0x0D
  }

  predicate Blank(l: Line) {
    forall i | 0 <= i < |l| :: AsciiWhitespace(l[i])
  }

  function NonBlank(lines: seq<Line>): seq<Line> {
    if lines == [] then []
    else
      var front, last := lines[..|lines| - 1], lines[|lines| - 1];
      if Blank(last) then NonBlank(front) else NonBlank(front) + [last]
  }

  /** A line is dropped exactly if it holds spaces, tabs, line feeds, form feeds and carriage returns only. */
  lemma DroppedIff(l: Line)
    ensures NonBlank([l]) == if forall i | 0 <= i < |l| :: l[i] == 32 || l[i] == 9 || l[i] == 10 || l[i] == 12 || l[i] == 13
                             then [] else [l]
  {
    var one: seq<Line> := [l];
    assert one[..0] == [];
    if !Blank(l) {
      var i :| 0 <= i < |l| && !AsciiWhitespace(l[i]);
      assert !(l[i] == 32 || l[i] == 9 || l[i] == 10 || l[i] == 12 || l[i] == 13);
    }
  }

  /** No complete line and no unfinished one is over the cap. */
  predicate Fits(s: seq<byte>, cap: nat) {
    |Trailing(s)| <= cap && AllShort(Lines(s), cap)
  }

  predicate AllShort(lines: seq<Line>, cap: nat) {
    forall i | 0 <= i < |lines| :: |lines[i]| <= cap
  }

  // ----- across chunks -----

  /** Only the unfinished line of what came before matters to what follows. */
  lemma {:induction false} LinesAcross(a: seq<byte>, b: seq<byte>)
    ensures Lines(a + b) == Lines(a) + Lines(Trailing(a) + b)
    ensures Trailing(a + b) == Trailing(Trailing(a) + b)
    decreases |b|
  {
    var t := Trailing(a);
    if b == [] {
      CutAtNewlines(a);
      CutIsUnique([], t);
      assert Joined([]) + t == t && t + b == t && a + b == a;
    } else {
      var b' := b[..|b| - 1];
      LinesAcross(a, b');
      assert (a + b)[..|a + b| - 1] == a + b' && (t + b)[..|t + b| - 1] == t + b';
    }
  }

  lemma {:induction false} NonBlankAcross(a: seq<Line>, b: seq<Line>)
    ensures NonBlank(a + b) == NonBlank(a) + NonBlank(b)
    decreases |b|
  {
    if b == [] {
      assert a + b == a;
    } else {
      NonBlankAcross(a, b[..|b| - 1]);
      assert (a + b)[..|a + b| - 1] == a + b[..|b| - 1];
    }
  }

  /** A line that is too long stays too long whatever follows. */
  lemma {:induction false} FitsAcross(a: seq<byte>, b: seq<byte>, cap: nat)
    ensures Fits(a + b, cap) <==> Fits(a, cap) && Fits(Trailing(a) + b, cap)
  {
    var t := Trailing(a);
    LinesAcross(a, b);
    ShortAcross(Lines(a), Lines(t + b), cap);
    CutAtNewlines(a);
    FitsFromStart(t, b, cap);
  }

  lemma ShortAcross(a: seq<Line>, b: seq<Line>, cap: nat)
    ensures AllShort(a + b, cap) <==> AllShort(a, cap) && AllShort(b, cap)
  {
    if AllShort(a + b, cap) {
      assert forall i | 0 <= i < |a| :: (a + b)[i] == a[i];
      assert forall i | 0 <= i < |b| :: (a + b)[|a| + i] == b[i];
    }
  }

  lemma FitsFromStart(t: Line, b: seq<byte>, cap: nat)
    requires NEWLINE !in t
    ensures Fits(t + b, cap) ==> |t| <= cap
  {
    StartsALine(t, b);
  }

  /** An unfinished line is the start of the next line, finished or not. */
  lemma {:induction false} StartsALine(t: Line, b: seq<byte>)
    ensures NEWLINE !in t && Lines(t + b) == [] ==> |t| <= |Trailing(t + b)|
    ensures NEWLINE !in t && Lines(t + b) != [] ==> |t| <= |Lines(t + b)[0]|
    decreases |b|
  {
    if b == [] {
      assert t + b == t && Joined([]) + t == t;
      if NEWLINE !in t { CutIsUnique([], t); }
    } else {
      StartsALine(t, b[..|b| - 1]);
      assert (t + b)[..|t + b| - 1] == t + b[..|b| - 1];
    }
  }

  datatype LineTooLong = LineTooLong

  /** The line a text starts with, finished or not. */
  function FirstLine(s: seq<byte>): Line {
    match Find(s, 0)
    case Some(i) => s[..i]
    case None => s
  }

  /** Of `data` after the unfinished line `t`, everything before `k` fits, and the line that goes on at `k`
      is the first one over the cap. */
  predicate FailsAt(t: Line, data: seq<byte>, cap: nat, k: nat) {
    && k <= |data| && (k == 0 || data[k - 1] == NEWLINE) && Fits(t + data[..k], cap)
    && |Trailing(t + data[..k])| + |FirstLine(data[k..])| > cap
  }

  class LineBuf {
    const cap: nat
    var buf: Line

    constructor (cap: nat)
      ensures this.cap == cap && buf == [] && Valid()
    {
      this.cap, buf := cap, [];
    }

    predicate Valid()
      reads this
    {
      |buf| <= cap && NEWLINE !in buf
    }

    /** `taken` bytes of `data` went in: all of them, or those before the first line that is too long. Of
        these the unfinished line is kept, whose rest is not in the buffer; what follows is dropped. */
    method Push(data: seq<byte>) returns (r: Result<seq<Line>, LineTooLong>, ghost taken: nat)
      requires Valid()
      modifies this
      ensures Valid()
      ensures r.Success? ==> taken == |data|
      ensures r.Failure? ==> FailsAt(old(buf), data, cap, taken)
      ensures taken <= |data| && buf == Trailing(old(buf) + data[..taken])
      ensures r.Success? <==> Fits(old(buf) + data, cap)
      ensures r.Success? ==> r.value == NonBlank(Lines(old(buf) + data)) && buf == Trailing(old(buf) + data)
      ensures r.Failure? ==> buf == old(buf) || (buf == [] && NEWLINE in data)
    {
      ghost var t := buf;
      PlainIsTrailing(buf);
      assert buf + data[..0] == buf;
      taken := 0;
      var out, rest := [], data;
      var at := Position(rest);
      while at.Some?
        invariant taken <= |data| && rest == data[taken..] && at == Find(rest, 0)
        invariant Taken(t, data, cap, taken, out, buf)
        decreases |rest|
      {
        var i := at.value;
        Advance(t, data, cap, taken, i, out, buf);
        if |buf| + i > cap {
          TakenIsValid(t, data, cap, taken, out, buf);
          return Failure(LineTooLong), taken;
        }
        var line := buf + rest[..i];
        buf := [];
        if !Blank(line) {
          out := out + [line];
        }
        rest := rest[i + 1..];
        taken := taken + i + 1;
        at := Position(rest);
      }
      TakenIsValid(t, data, cap, taken, out, buf);
      Finish(t, data, cap, taken, out, buf);
      if |buf| + |rest| > cap {
        return Failure(LineTooLong), taken;
      }
      buf := buf + rest;
      return Success(out), |data|;
    }

    method Position(s: seq<byte>) returns (r: Option<nat>)
      ensures r == Find(s, 0)
    {
      var i := 0;
      while i < |s|
        invariant i <= |s| && Find(s, 0) == Find(s, i)
      {
        if s[i] == NEWLINE {
          return Some(i);
        }
        i := i + 1;
      }
      return None;
    }
  }

  /** The place of the first newline at `from` or after. */
  function Find(s: seq<byte>, from: nat): (r: Option<nat>)
    requires from <= |s|
    ensures r.Some? ==> from <= r.value < |s|
    decreases |s| - from
  {
    if from == |s| then None else if s[from] == NEWLINE then Some(from) else Find(s, from + 1)
  }

  lemma {:induction false} FirstNewline(s: seq<byte>, from: nat)
    requires from <= |s|
    ensures match Find(s, from)
            case Some(i) => from <= i < |s| && s[i] == NEWLINE && NEWLINE !in s[from..i]
            case None => NEWLINE !in s[from..]
    decreases |s| - from
  {
    if from < |s| && s[from] != NEWLINE {
      FirstNewline(s, from + 1);
      match Find(s, from)
      case Some(i) => assert s[from..i] == [s[from]] + s[from + 1..i];
      case None => assert s[from..] == [s[from]] + s[from + 1..];
    }
  }

  lemma PlainIsTrailing(t: Line)
    requires NEWLINE !in t
    ensures Lines(t) == [] && Trailing(t) == t
  {
    CutIsUnique([], t);
    assert Joined([]) + t == t;
  }

  lemma OneLine(t: Line, u: Line)
    requires NEWLINE !in t && NEWLINE !in u
    ensures Lines(t + (u + [NEWLINE])) == [t + u] && Trailing(t + (u + [NEWLINE])) == []
  {
    PlainIsTrailing(t + u);
    var s := t + (u + [NEWLINE]);
    assert s[..|s| - 1] == t + u;
  }

  /** The next newline of `rest` is at `i`: one more line is complete. */
  lemma TakeLine(seen: seq<byte>, rest: seq<byte>, i: nat, cap: nat)
    requires Fits(seen, cap) && i < |rest| && rest[i] == NEWLINE && NEWLINE !in rest[..i]
    ensures var next, line := seen + rest[..i + 1], Trailing(seen) + rest[..i];
            && seen + rest == next + rest[i + 1..] && Trailing(next) == []
            && NonBlank(Lines(next)) == NonBlank(Lines(seen)) + (if Blank(line) then [] else [line])
            && (Fits(next, cap) <==> |line| <= cap) && (Fits(seen + rest, cap) ==> Fits(next, cap))
  {
    var next, line := seen + rest[..i + 1], Trailing(seen) + rest[..i];
    assert rest[..i + 1] == rest[..i] + [NEWLINE] && seen + rest == next + rest[i + 1..];
    CutAtNewlines(seen);
    OneLine(Trailing(seen), rest[..i]);
    LinesAcross(seen, rest[..i + 1]);
    FitsAcross(seen, rest[..i + 1], cap);
    FitsAcross(next, rest[i + 1..], cap);
    var one: seq<Line> := [line];
    NonBlankAcross(Lines(seen), one);
    assert one[..0] == [];
  }

  lemma TakeRest(seen: seq<byte>, rest: seq<byte>, cap: nat)
    requires Fits(seen, cap) && NEWLINE !in rest
    ensures Lines(seen + rest) == Lines(seen) && Trailing(seen + rest) == Trailing(seen) + rest
    ensures Fits(seen + rest, cap) <==> |Trailing(seen)| + |rest| <= cap
  {
    CutAtNewlines(seen);
    PlainIsTrailing(Trailing(seen) + rest);
    LinesAcross(seen, rest);
    FitsAcross(seen, rest, cap);
  }

  /** The first `k` bytes went in and left the lines `out` and the unfinished line `buf`. */
  predicate Taken(t: Line, data: seq<byte>, cap: nat, k: nat, out: seq<Line>, buf: Line) {
    && k <= |data| && (k == 0 || data[k - 1] == NEWLINE) && Fits(t + data[..k], cap)
    && out == NonBlank(Lines(t + data[..k])) && buf == Trailing(t + data[..k])
  }

  /** One turn of the loop: the next newline after the first `k` bytes is `i` further on. */
  lemma Advance(t: Line, data: seq<byte>, cap: nat, k: nat, i: nat, out: seq<Line>, buf: Line)
    requires Taken(t, data, cap, k, out, buf) && Find(data[k..], 0) == Some(i)
    ensures var line := buf + data[k..][..i];
            && k + i + 1 <= |data| && data[k..][i + 1..] == data[k + i + 1..]
            && (if |line| <= cap
                then Taken(t, data, cap, k + i + 1, out + (if Blank(line) then [] else [line]), [])
                else FailsAt(t, data, cap, k) && !Fits(t + data, cap))
  {
    var rest := data[k..];
    FirstNewline(rest, 0);
    assert rest[0..i] == rest[..i];
    TakeLine(t + data[..k], rest, i, cap);
    Rejoin(t, data, k);
    TakenFurther(t, data, k, i);
  }

  lemma TakenFurther(t: Line, data: seq<byte>, k: nat, i: nat)
    requires k + i + 1 <= |data|
    ensures (t + data[..k]) + data[k..][..i + 1] == t + data[..k + i + 1] && data[k..][i + 1..] == data[k + i + 1..]
    ensures data[k..][i] == data[k + i]
  {
    assert data[..k] + data[k..][..i + 1] == data[..k + i + 1];
  }

  /** After the loop: no newline follows. */
  lemma Finish(t: Line, data: seq<byte>, cap: nat, k: nat, out: seq<Line>, buf: Line)
    requires Taken(t, data, cap, k, out, buf) && Find(data[k..], 0) == None && NEWLINE !in buf
    ensures data[..|data|] == data && NEWLINE !in buf + data[k..]
    ensures if |buf| + |data[k..]| <= cap
            then Fits(t + data, cap) && out == NonBlank(Lines(t + data)) && buf + data[k..] == Trailing(t + data)
            else FailsAt(t, data, cap, k) && !Fits(t + data, cap)
  {
    var seen, rest := t + data[..k], data[k..];
    NoNewline(rest);
    TakeRest(seen, rest, cap);
    Rejoin(t, data, k);
  }

  lemma NoNewline(rest: seq<byte>)
    requires Find(rest, 0) == None
    ensures NEWLINE !in rest && FirstLine(rest) == rest
  {
    FirstNewline(rest, 0);
    assert rest[0..] == rest;
  }

  lemma Rejoin(t: Line, data: seq<byte>, k: nat)
    requires k <= |data|
    ensures (t + data[..k]) + data[k..] == t + data && data[..|data|] == data
  {
  }

  lemma TakenIsValid(t: Line, data: seq<byte>, cap: nat, k: nat, out: seq<Line>, buf: Line)
    requires Taken(t, data, cap, k, out, buf) && NEWLINE !in t
    ensures |buf| <= cap && NEWLINE !in buf
    ensures buf == t || (buf == [] && NEWLINE in data)
  {
    var seen := t + data[..k];
    CutAtNewlines(seen);
    if k == 0 {
      assert seen == t;
      PlainIsTrailing(t);
    } else {
      assert seen[|seen| - 1] == data[k - 1];
    }
  }

  // ----- a whole stream, read in chunks -----

  /** Reading chunk by chunk up to the first failure, as the relay loops do, gives what splitting the
      whole stream at once gives, wherever the chunks were cut. */
  method ReadAll(chunks: seq<seq<byte>>, cap: nat) returns (lines: seq<Line>, ok: bool, rest: Line)
    ensures ok <==> Fits(Flat(chunks), cap)
    ensures ok ==> lines == NonBlank(Lines(Flat(chunks))) && rest == Trailing(Flat(chunks))
    ensures |rest| <= cap
  {
    var b := new LineBuf(cap);
    lines, ok := [], true;
    for n := 0 to |chunks|
      invariant b.Valid() && b.cap == cap && ok
      invariant Fits(Flat(chunks[..n]), cap) && b.buf == Trailing(Flat(chunks[..n]))
      invariant lines == NonBlank(Lines(Flat(chunks[..n])))
    {
      ghost var seen := Flat(chunks[..n]);
      assert chunks[..n + 1][..n] == chunks[..n];
      LinesAcross(seen, chunks[n]);
      FitsAcross(seen, chunks[n], cap);
      NonBlankAcross(Lines(seen), Lines(Trailing(seen) + chunks[n]));
      var r, _ := b.Push(chunks[n]);
      if r.Failure? {
        FlatStarts(chunks, n + 1);
        FitsAcross(Flat(chunks[..n + 1]), Flat(chunks)[|Flat(chunks[..n + 1])|..], cap);
        return lines, false, b.buf;
      }
      lines := lines + r.value;
    }
    assert chunks[..|chunks|] == chunks;
    rest := b.buf;
  }

  lemma {:induction false} FlatStarts(chunks: seq<seq<byte>>, n: nat)
    requires n <= |chunks|
    ensures Flat(chunks[..n]) <= Flat(chunks)
    ensures Flat(chunks) == Flat(chunks[..n]) + Flat(chunks)[|Flat(chunks[..n])|..]
    decreases |chunks|
  {
    if n < |chunks| {
      var front := chunks[..|chunks| - 1];
      FlatStarts(front, n);
      assert front[..n] == chunks[..n];
    } else {
      assert chunks[..n] == chunks;
    }
  }

  // ----- reading on after a failure -----

  /** The lines `a` are the last ones of `b`. */
  predicate Tail(a: seq<Line>, b: seq<Line>) {
    |a| <= |b| && b[|b| - |a|..] == a
  }

  /** Reading on with `kept` in the buffer cuts the rest of the stream, whatever it is, where the stream's
      own lines end and begin; `whole` is the stream up to here, the dropped bytes included. */
  ghost predicate CutsRight(kept: Line, whole: seq<byte>, cap: nat) {
    forall more | Fits(kept + more, cap) :: Tail(Lines(kept + more), Lines(whole + more))
  }

  lemma {:induction false} CutsRightIff(kept: Line, whole: seq<byte>, cap: nat)
    requires NEWLINE !in kept && |kept| <= cap
    ensures CutsRight(kept, whole, cap) <==> kept == Trailing(whole)
  {
    if kept == Trailing(whole) {
      forall more | Fits(kept + more, cap) ensures Tail(Lines(kept + more), Lines(whole + more)) {
        LinesAcross(whole, more);
      }
    }
    if CutsRight(kept, whole, cap) {
      CutAtNewlines(whole);
      EndsALine(kept);
      EndsALine(Trailing(whole));
      LinesAcross(whole, [NEWLINE]);
      assert Tail(Lines(kept + [NEWLINE]), Lines(whole + [NEWLINE]));
    }
  }

  lemma EndsALine(t: Line)
    requires NEWLINE !in t
    ensures Lines(t + [NEWLINE]) == [t] && Trailing(t + [NEWLINE]) == []
  {
    OneLine(t, []);
    assert t + ([] + [NEWLINE]) == t + [NEWLINE] && t + [] == t;
  }

  /** Then what is delivered is what is left of the stream's non-blank lines. */
  lemma DeliversTheStream(kept: Line, whole: seq<byte>, more: seq<byte>)
    requires kept == Trailing(whole)
    ensures Tail(NonBlank(Lines(kept + more)), NonBlank(Lines(whole + more)))
  {
    LinesAcross(whole, more);
    NonBlankAcross(Lines(whole), Lines(kept + more));
  }

  /** After a failure at `k`, with `before` read without one: reading on cuts right exactly if the dropped
      bytes hold a newline and end, after their last one, with what is kept. With nothing kept that is:
      exactly if they end with a newline. */
  lemma {:induction false} ReadingOnIff(before: seq<byte>, data: seq<byte>, cap: nat, k: nat)
    requires Fits(before, cap) && FailsAt(Trailing(before), data, cap, k)
    ensures var kept, dropped := Trailing(Trailing(before) + data[..k]), data[k..];
            && (CutsRight(kept, before + data, cap) <==> NEWLINE in dropped && kept == Trailing(dropped))
            && (kept == [] ==> (CutsRight(kept, before + data, cap)
                                <==> dropped != [] && dropped[|dropped| - 1] == NEWLINE))
  {
    var t := Trailing(before);
    var kept, dropped := Trailing(t + data[..k]), data[k..];
    CutAtNewlines(t + data[..k]);
    CutsRightIff(kept, before + data, cap);
    LinesAcross(before, data);
    KeptIsUnfinishedIff(t, data, cap, k);
    EmptyRest(dropped);
  }

  /** What is kept is the stream's unfinished line. */
  lemma KeptIsUnfinishedIff(t: Line, data: seq<byte>, cap: nat, k: nat)
    requires FailsAt(t, data, cap, k)
    ensures var kept, dropped := Trailing(t + data[..k]), data[k..];
            kept == Trailing(t + data) <==> NEWLINE in dropped && kept == Trailing(dropped)
  {
    var kept, dropped := Trailing(t + data[..k]), data[k..];
    CutAtNewlines(t + data[..k]);
    assert t + data == (t + data[..k]) + dropped;
    LinesAcross(t + data[..k], dropped);
    FirstNewline(dropped, 0);
    if NEWLINE in dropped {
      RestOfLast(kept, dropped);
    } else {
      PlainIsTrailing(kept + dropped);
    }
  }

  /** After a newline it does not matter what came before. */
  lemma {:induction false} RestOfLast(t: seq<byte>, s: seq<byte>)
    requires NEWLINE in s
    ensures Trailing(t + s) == Trailing(s)
    decreases |s|
  {
    var front, last := s[..|s| - 1], s[|s| - 1];
    assert (t + s)[..|t + s| - 1] == t + front;
    if last != NEWLINE {
      assert s == front + [last];
      RestOfLast(t, front);
    }
  }

  lemma EmptyRest(s: seq<byte>)
    ensures NEWLINE in s && Trailing(s) == [] <==> s != [] && s[|s| - 1] == NEWLINE
  {
  }

  /** The rest of the chunk is dropped but the unfinished line is kept, so reading on, as the teardown loop
      does, splices two lines: `abc...` and `...z` arrive as one. */
  method ReadingOnSplices(cap: nat, start: Line, lost: Line, end: Line) returns (first: bool, second: seq<Line>)
    requires 0 < |start| && NEWLINE !in start + lost + end && !Blank(start)
    requires |start| + |lost| > cap && |start| + |end| <= cap
    ensures !first && second == [start + end]
  {
    var b := new LineBuf(cap);
    PlainIsTrailing(start);
    PlainIsTrailing(start + lost);
    assert [] + start == start;
    var r, k := b.Push(start);
    r, k := b.Push(lost);
    first := r.Success?;
    KeptWhole(start, lost, k);
    assert (start + end)[..|start|] == start;
    Spliced(cap, start, end);
    r, k := b.Push(end + [NEWLINE]);
    second := r.value;
  }

  /** Bytes without a newline are taken all or not at all. */
  lemma KeptWhole(t: Line, data: seq<byte>, k: nat)
    requires NEWLINE !in t + data && k <= |data| && (k == 0 || data[k - 1] == NEWLINE)
    ensures k == 0 && Trailing(t + data[..k]) == t
  {
    assert forall i | 0 <= i < |data| :: data[i] == (t + data)[|t| + i];
    assert t + data[..0] == t;
    PlainIsTrailing(t);
  }

  /** And with nothing kept it cuts the head off a line: of the one line `lost + end`, `end` arrives. */
  method ReadingOnBeheads(cap: nat, lost: Line, end: Line) returns (first: bool, second: seq<Line>)
    requires NEWLINE !in lost + end && !Blank(end) && |lost| > cap >= |end|
    ensures !first && second == [end] && Lines(lost + (end + [NEWLINE])) == [lost + end]
  {
    var b := new LineBuf(cap);
    PlainIsTrailing(lost);
    assert [] + lost == lost;
    var r, k := b.Push(lost);
    first := r.Success?;
    KeptWhole([], lost, k);
    assert [] + end == end;
    Spliced(cap, [], end);
    OneLine(lost, end);
    r, k := b.Push(end + [NEWLINE]);
    second := r.value;
  }

  /** A kept start is harmless if the dropped bytes happen to end with the same one: here `a`, then a line
      that is too long, then `a` again. */
  lemma SameStartIsHarmless(a: byte, long: Line, cap: nat)
    requires a != NEWLINE && NEWLINE !in long && 0 < cap < 1 + |long|
    ensures FailsAt([a], long + [NEWLINE, a], cap, 0) && CutsRight([a], [a] + (long + [NEWLINE, a]), cap)
  {
    var data, one := long + [NEWLINE, a], [a];
    PlainIsTrailing(one);
    assert one + data[..0] == one && data[0..] == data;
    FirstNewline(data, 0);
    assert data[|long|] == NEWLINE && forall i | 0 <= i < |long| :: data[i] == long[i];
    assert FirstLine(data) == long by {
      var i := Find(data, 0).value;
      assert i == |long|;
    }
    var rest: seq<byte> := [NEWLINE, a];
    assert data[..|data| - 1] == long + [NEWLINE];
    EndsALine(long);
    RestOfLast(one, data);
    CutsRightIff(one, one + data, cap);
  }

  lemma Spliced(cap: nat, start: Line, end: Line)
    requires NEWLINE !in start && NEWLINE !in end && !Blank(start + end) && |start| + |end| <= cap
    ensures Fits(start + (end + [NEWLINE]), cap) && NonBlank(Lines(start + (end + [NEWLINE]))) == [start + end]
  {
    OneLine(start, end);
    var one: seq<Line> := [start + end];
    assert one[..0] == [];
  }
}
