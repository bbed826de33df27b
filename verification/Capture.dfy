/**
 Capture of a token from terminal output (sandbox-container/src/capture.rs): escape sequences are
 stripped, then a scanner looks for the token's prefix and collects the token across line wraps.
 */
module Capture {
  import opened Wrappers

  const ESC: byte := 0x1b
  const BEL: byte := 0x07
  const BACKSLASH: byte := 0x5c

  // ----- stripping escape sequences -----

  datatype AnsiState = Text | Esc | Skip1 | Csi | Osc | OscEsc

  function NextAnsi(st: AnsiState, b: byte): AnsiState {
    match st
    case Text => if b == ESC then Esc else Text
    case Esc =>
      if b == 0x5b then Csi else if b == 0x5d then Osc
      else if b == 0x28 || b == 0x29 || b == 0x2a || b == 0x2b || b == 0x23 then Skip1 else Text
    case Skip1 => Text
    case Csi => if 0x40 <= b <= 0x7e then Text else Csi
    case Osc => if b == BEL then Text else if b == ESC then OscEsc else Osc
    case OscEsc => if b == BACKSLASH then Text else Osc
  }

  function AnsiAfter(st: AnsiState, s: seq<byte>): AnsiState {
    if s == [] then st else NextAnsi(AnsiAfter(st, s[..|s| - 1]), s[|s| - 1])
  }

  /** The plain bytes of `s`. */
  function Strip(st: AnsiState, s: seq<byte>): seq<byte> {
    if s == [] then []
    else
      var front, last := s[..|s| - 1], s[|s| - 1];
      if AnsiAfter(st, front) == Text && last != ESC then Strip(st, front) + [last] else Strip(st, front)
  }

  lemma {:induction false} StripAcross(st: AnsiState, a: seq<byte>, b: seq<byte>)
    ensures AnsiAfter(st, a + b) == AnsiAfter(AnsiAfter(st, a), b)
    ensures Strip(st, a + b) == Strip(st, a) + Strip(AnsiAfter(st, a), b)
    decreases |b|
  {
    if b == [] {
      assert a + b == a;
    } else {
      StripAcross(st, a, b[..|b| - 1]);
      assert (a + b)[..|a + b| - 1] == a + b[..|b| - 1];
    }
  }

  /** The parameters of a control sequence: no byte that would end it. */
  predicate Parameters(s: seq<byte>) {
    forall i | 0 <= i < |s| :: s[i] < 0x40 || s[i] > 0x7e
  }

  /** A title: no byte that would end it or begin its end. */
  predicate Title(s: seq<byte>) {
    forall i | 0 <= i < |s| :: s[i] != 0x07 && s[i] != 0x1b
  }

  /** A whole escape sequence: a control sequence; a title, ended by BEL or by ESC and a backslash; ESC, one of
      `()*+#` and a byte; or ESC and any other byte. */
  predicate Sequence(e: seq<byte>) {
    && |e| >= 2 && e[0] == 0x1b
    && var last := e[|e| - 1];
       if e[1] == 0x5b then |e| >= 3 && Parameters(e[2..|e| - 1]) && 0x40 <= last <= 0x7e
       else if e[1] == 0x5d then
         || (|e| >= 3 && Title(e[2..|e| - 1]) && last == 0x07)
         || (|e| >= 4 && Title(e[2..|e| - 2]) && e[|e| - 2] == 0x1b && last == 0x5c)
       else if e[1] == 0x28 || e[1] == 0x29 || e[1] == 0x2a || e[1] == 0x2b || e[1] == 0x23 then |e| == 3
       else |e| == 2
  }

  lemma {:induction false} StaysInside(st: AnsiState, s: seq<byte>)
    requires (st == Csi && Parameters(s)) || (st == Osc && Title(s))
    ensures AnsiAfter(st, s) == st && Strip(st, s) == []
    decreases |s|
  {
    if s != [] {
      StaysInside(st, s[..|s| - 1]);
    }
  }

  lemma OneByte(st: AnsiState, b: byte, rest: seq<byte>)
    ensures AnsiAfter(st, [b] + rest) == AnsiAfter(NextAnsi(st, b), rest)
    ensures Strip(st, [b] + rest) == (if st == Text && b != ESC then [b] else []) + Strip(NextAnsi(st, b), rest)
  {
    var s := [b];
    assert s[..0] == [];
    StripAcross(st, s, rest);
  }

  /** What follows the first two bytes. */
  lemma EndsInside(st: AnsiState, mid: seq<byte>, end: seq<byte>)
    requires (st == Csi && Parameters(mid) && |end| == 1 && 0x40 <= end[0] <= 0x7e)
          || (st == Osc && Title(mid) && (end == [0x07] || end == [0x1b, 0x5c]))
    ensures AnsiAfter(st, mid + end) == Text && Strip(st, mid + end) == []
  {
    StaysInside(st, mid);
    StripAcross(st, mid, end);
    assert end == [end[0]] + end[1..];
    OneByte(st, end[0], end[1..]);
    if |end| == 2 {
      assert end[1..] == [end[1]] + [];
      OneByte(OscEsc, end[1], []);
    }
  }

  lemma AfterTwo(e: seq<byte>)
    requires |e| >= 2 && e[0] == 0x1b
    ensures AnsiAfter(Text, e) == AnsiAfter(NextAnsi(Esc, e[1]), e[2..])
    ensures Strip(Text, e) == Strip(NextAnsi(Esc, e[1]), e[2..])
  {
    var rest := e[2..];
    assert e == [e[0]] + ([e[1]] + rest);
    OneByte(Text, e[0], [e[1]] + rest);
    OneByte(Esc, e[1], rest);
  }

  lemma TitleEnds(e: seq<byte>)
    requires Sequence(e) && e[1] == 0x5d
    ensures Strip(Osc, e[2..]) == [] && AnsiAfter(Osc, e[2..]) == Text
  {
    if |e| >= 3 && Title(e[2..|e| - 1]) && e[|e| - 1] == 0x07 {
      assert e[2..] == e[2..|e| - 1] + [e[|e| - 1]];
      EndsInside(Osc, e[2..|e| - 1], [e[|e| - 1]]);
    } else {
      assert e[2..] == e[2..|e| - 2] + [e[|e| - 2], e[|e| - 1]];
      EndsInside(Osc, e[2..|e| - 2], [e[|e| - 2], e[|e| - 1]]);
    }
  }

  lemma SequenceAlone(e: seq<byte>)
    requires Sequence(e)
    ensures Strip(Text, e) == [] && AnsiAfter(Text, e) == Text
  {
    AfterTwo(e);
    if e[1] == 0x5b {
      assert e[2..] == e[2..|e| - 1] + [e[|e| - 1]];
      EndsInside(Csi, e[2..|e| - 1], [e[|e| - 1]]);
    } else if e[1] == 0x5d {
      TitleEnds(e);
    } else if |e| == 3 {
      assert e[2..] == [e[2]] + [];
      OneByte(Skip1, e[2], []);
    }
  }

  /** And nothing shorter will do: inside a sequence the stripper stays until its last byte. */
  lemma InsideIsOpen(e: seq<byte>, n: nat)
    requires Sequence(e) && 0 < n < |e|
    ensures AnsiAfter(Text, e[..n]) != Text
  {
    var first := e[..1];
    assert first == [e[0]] && first[..0] == [];
    if n >= 2 {
      var two := e[..2];
      assert two[..1] == first && two[1] == e[1];
      var st := AnsiAfter(Text, two);
      var mid := e[2..n];
      assert e[..n] == two + mid;
      StripAcross(Text, two, mid);
      if st == Csi {
        assert Parameters(mid) by {
          assert forall i | 0 <= i < |mid| :: mid[i] == e[2..|e| - 1][i];
        }
        StaysInside(Csi, mid);
      } else if st == Osc {
        TitleIsOpen(e, n);
      } else {
        assert mid == [];
      }
    }
  }

  lemma TitleIsOpen(e: seq<byte>, n: nat)
    requires Sequence(e) && 2 <= n < |e| && e[1] == 0x5d
    ensures AnsiAfter(Osc, e[2..n]) != Text
  {
    var mid := e[2..n];
    if Title(e[2..|e| - 1]) {
      assert forall i | 0 <= i < |mid| :: mid[i] == e[2..|e| - 1][i];
      StaysInside(Osc, mid);
    } else if n == |e| - 1 {
      var body := e[2..|e| - 2];
      assert mid == body + [e[|e| - 2]];
      StaysInside(Osc, body);
      assert mid[..|mid| - 1] == body;
    } else {
      assert forall i | 0 <= i < |mid| :: mid[i] == e[2..|e| - 2][i];
      StaysInside(Osc, mid);
    }
  }

  /** A whole sequence leaves no byte and nothing open, wherever it stands in plain text. */
  lemma SequenceVanishes(a: seq<byte>, e: seq<byte>, b: seq<byte>)
    requires AnsiAfter(Text, a) == Text && Sequence(e)
    ensures Strip(Text, a + e + b) == Strip(Text, a) + Strip(Text, b)
    ensures AnsiAfter(Text, a + e) == Text
  {
    SequenceAlone(e);
    NothingLeft(a, e, b);
  }

  lemma NothingLeft(a: seq<byte>, e: seq<byte>, b: seq<byte>)
    requires AnsiAfter(Text, a) == AnsiAfter(Text, e) == Text && Strip(Text, e) == []
    ensures Strip(Text, a + e + b) == Strip(Text, a) + Strip(Text, b)
    ensures AnsiAfter(Text, a + e) == Text
  {
    StripAcross(Text, a, e);
    StripAcross(Text, a + e, b);
    assert Strip(Text, a + e) == Strip(Text, a);
  }

  lemma {:induction false} TextIsKept(s: seq<byte>)
    requires ESC !in s
    ensures Strip(Text, s) == s && AnsiAfter(Text, s) == Text
  {
    if s != [] {
      TextIsKept(s[..|s| - 1]);
    }
  }

  class AnsiStripper {
    var state: AnsiState

    constructor ()
      ensures state == Text
    {
      state := Text;
    }

    method Push(chunk: seq<byte>) returns (out: seq<byte>)
      modifies this
      ensures out == Strip(old(state), chunk) && state == AnsiAfter(old(state), chunk)
    {
      out := [];
      for i := 0 to |chunk|
        invariant out == Strip(old(state), chunk[..i]) && state == AnsiAfter(old(state), chunk[..i])
      {
        assert chunk[..i + 1][..i] == chunk[..i];
        if state == Text && chunk[i] != ESC {
          out := out + [chunk[i]];
        }
        state := NextAnsi(state, chunk[i]);
      }
      assert chunk[..|chunk|] == chunk;
    }
  }

  // ----- scanning for the token -----

  /** `sk-ant-oat01-` */
  const PREFIX: seq<byte> := [115, 107, 45, 97, 110, 116, 45, 111, 97, 116, 48, 49, 45]
  const MIN_LEN := 100
  const MAX_LEN := 1024

  datatype Scan = Prefix(window: seq<byte>) | Token(buf: seq<byte>) | Done

  const START := Prefix([])

  datatype Fed = Fed(scan: Scan, token: Option<seq<byte>>)

  predicate TokenByte(b: byte) {
    Alphanumeric(b) || b == 45 || b == 95
  }

  /** A token is made of letters, digits, `-` and `_`. */
  lemma TokenByteIff(b: byte)
    ensures TokenByte(b) <==> LetterOrDigit(b as char) || (b as char) in "-_"
  {
    AlphanumericIff(b);
  }

  predicate LineBreak(b: byte) {
    b == 13 || b == 10
  }

  /** The stream ended, or the token did. */
  function Finish(scan: Scan): Fed {
    Fed(Done, if scan.Token? && |scan.buf| >= MIN_LEN then Some(scan.buf) else None)
  }

  function Slide(window: seq<byte>, b: byte): seq<byte> {
    if |window| + 1 > |PREFIX| then (window + [b])[1..] else window + [b]
  }

  function Feed(scan: Scan, b: byte): Fed {
    match scan
    case Done => Fed(Done, None)
    case Prefix(window) =>
      if LineBreak(b) then Fed(scan, None)
      else if Slide(window, b) == PREFIX then Fed(Token(PREFIX), None)
      else Fed(Prefix(Slide(window, b)), None)
    case Token(buf) =>
      if TokenByte(b) then Fed(if |buf| + 1 >= MAX_LEN then START else Token(buf + [b]), None)
      else if LineBreak(b) && |buf| < MIN_LEN then Fed(scan, None)
      else Finish(scan)
  }

  function Then(f: Fed, g: Fed): Fed {
    Fed(g.scan, if f.token.Some? then f.token else g.token)
  }

  function ScanAll(scan: Scan, s: seq<byte>): Fed {
    if s == [] then Fed(scan, None)
    else
      var f := ScanAll(scan, s[..|s| - 1]);
      Then(f, Feed(f.scan, s[|s| - 1]))
  }

  lemma {:induction false} ScanAcross(scan: Scan, a: seq<byte>, b: seq<byte>)
    ensures ScanAll(scan, a + b) == Then(ScanAll(scan, a), ScanAll(ScanAll(scan, a).scan, b))
    decreases |b|
  {
    if b == [] {
      assert a + b == a;
    } else {
      ScanAcross(scan, a, b[..|b| - 1]);
      assert (a + b)[..|a + b| - 1] == a + b[..|b| - 1];
    }
  }

  lemma {:induction false} DoneStays(s: seq<byte>)
    ensures ScanAll(Done, s) == Fed(Done, None)
  {
    if s != [] {
      DoneStays(s[..|s| - 1]);
    }
  }

  class TokenScanner {
    var scan: Scan

    constructor ()
      ensures scan == START
    {
      scan := START;
    }

    method Push(plain: seq<byte>) returns (token: Option<seq<byte>>)
      modifies this
      ensures Fed(scan, token) == ScanAll(old(scan), plain)
    {
      for i := 0 to |plain|
        invariant Fed(scan, None) == ScanAll(old(scan), plain[..i])
      {
        var b := plain[i];
        assert plain[..i + 1][..i] == plain[..i];
        match scan {
          case Done =>
            AfterDone(old(scan), plain, i);
            return None;
          case Prefix(window) =>
            if !LineBreak(b) {
              var w := window + [b];
              if |w| > |PREFIX| {
                w := w[1..];
              }
              scan := if w == PREFIX then Token(PREFIX) else Prefix(w);
            }
          case Token(buf) =>
            if TokenByte(b) {
              scan := if |buf| + 1 >= MAX_LEN then START else Token(buf + [b]);
            } else if LineBreak(b) && |buf| < MIN_LEN {
            } else {
              AfterDone(old(scan), plain, i + 1);
              token := this.Close();
              return token;
            }
        }
      }
      assert plain[..|plain|] == plain;
      return None;
    }

    method Close() returns (token: Option<seq<byte>>)
      modifies this
      ensures Fed(scan, token) == Finish(old(scan))
    {
      token := if scan.Token? && |scan.buf| >= MIN_LEN then Some(scan.buf) else None;
      scan := Done;
    }
  }

  lemma AfterDone(scan: Scan, s: seq<byte>, i: nat)
    requires i <= |s| && ScanAll(scan, s[..i]).scan == Done
    ensures ScanAll(scan, s) == ScanAll(scan, s[..i])
  {
    assert s == s[..i] + s[i..];
    ScanAcross(scan, s[..i], s[i..]);
    DoneStays(s[i..]);
  }

  // ----- where the scanner is, in terms of the text -----

  /** The text without line breaks. */
  function Plain(s: seq<byte>): seq<byte> {
    if s == [] then []
    else if LineBreak(s[|s| - 1]) then Plain(s[..|s| - 1]) else Plain(s[..|s| - 1]) + [s[|s| - 1]]
  }

  /** How much of the text the last reset, of a candidate that ran over, left behind. */
  function ResetAt(s: seq<byte>): nat
    ensures ResetAt(s) <= |s|
  {
    if s == [] then 0
    else
      var front, last := s[..|s| - 1], s[|s| - 1];
      if Resets(ScanAll(START, front).scan, last) then |s| else ResetAt(front)
  }

  function Since(s: seq<byte>): seq<byte> {
    Plain(s[ResetAt(s)..])
  }

  predicate OccursAt(x: seq<byte>, i: nat) {
    i + |PREFIX| <= |x| && x[i..i + |PREFIX|] == PREFIX
  }

  predicate Absent(x: seq<byte>) {
    forall i: nat | i <= |x| :: !OccursAt(x, i)
  }

  predicate FirstAt(x: seq<byte>, i: nat) {
    OccursAt(x, i) && forall j | 0 <= j < i :: !OccursAt(x, j)
  }

  function LastOf(x: seq<byte>, n: nat): seq<byte> {
    if |x| <= n then x else x[|x| - n..]
  }

  /** `t` is the end of the text from the first prefix in it on. */
  predicate Stands(x: seq<byte>, t: seq<byte>) {
    |t| <= |x| && t == x[|x| - |t|..] && FirstAt(x, |x| - |t|)
  }

  predicate TokenBytes(s: seq<byte>) {
    forall i | 0 <= i < |s| :: TokenByte(s[i])
  }

  /** The scanner looks for the prefix while it is absent; it collects from its first occurrence on. */
  predicate Placed(x: seq<byte>, scan: Scan) {
    match scan
    case Prefix(window) => Absent(x) && window == LastOf(x, |PREFIX|)
    case Token(buf) =>
      |PREFIX| <= |buf| < MAX_LEN && Stands(x, buf) && TokenBytes(buf)
    case Done => true
  }

  lemma Slides(x: seq<byte>, b: byte)
    ensures Slide(LastOf(x, |PREFIX|), b) == LastOf(x + [b], |PREFIX|)
  {
  }

  lemma OccursOneMore(x: seq<byte>, b: byte, i: nat)
    ensures OccursAt(x + [b], i) <==> OccursAt(x, i) || (i + |PREFIX| == |x| + 1 && LastOf(x + [b], |PREFIX|) == PREFIX)
  {
    if i + |PREFIX| <= |x| {
      assert (x + [b])[i..i + |PREFIX|] == x[i..i + |PREFIX|];
    }
  }

  lemma PrefixIsToken()
    ensures TokenBytes(PREFIX)
  {
  }

  lemma PlacedNext(x: seq<byte>, scan: Scan, b: byte)
    requires Placed(x, scan) && !LineBreak(b) && !Resets(scan, b)
    ensures Placed(x + [b], Feed(scan, b).scan)
  {
    var y := x + [b];
    match scan
    case Prefix(window) =>
      Slides(x, b);
      forall i: nat | i <= |y| ensures OccursAt(y, i) <==> i + |PREFIX| == |y| && LastOf(y, |PREFIX|) == PREFIX {
        OccursOneMore(x, b, i);
      }
      PrefixIsToken();
    case Token(buf) =>
      forall i: nat | i <= |x| - |buf| ensures OccursAt(y, i) <==> OccursAt(x, i) {
        OccursOneMore(x, b, i);
      }
    case Done =>
  }

  predicate Resets(scan: Scan, b: byte) {
    scan.Token? && TokenByte(b) && |scan.buf| + 1 >= MAX_LEN
  }

  lemma PlacedStep(x: seq<byte>, scan: Scan, b: byte)
    requires Placed(x, scan)
    ensures Placed(if Resets(scan, b) then [] else if LineBreak(b) then x else x + [b], Feed(scan, b).scan)
  {
    if !Resets(scan, b) && !LineBreak(b) {
      PlacedNext(x, scan, b);
    }
  }

  lemma SinceNext(front: seq<byte>, b: byte)
    ensures var x := Since(front);
            Since(front + [b]) ==
              if Resets(ScanAll(START, front).scan, b) then [] else if LineBreak(b) then x else x + [b]
  {
    var s, r := front + [b], ResetAt(front);
    assert s[..|s| - 1] == front;
    assert s[r..] == front[r..] + [b];
    PlainNext(front[r..], b);
  }

  lemma PlainNext(t: seq<byte>, b: byte)
    ensures Plain(t + [b]) == if LineBreak(b) then Plain(t) else Plain(t) + [b]
  {
    assert (t + [b])[..|t|] == t;
  }

  /** Since the last reset, the scanner is collecting exactly if the prefix occurred, and what it has
      collected is the text from the first occurrence on. */
  lemma {:induction false} ScannerIsPlaced(s: seq<byte>)
    ensures Placed(Since(s), ScanAll(START, s).scan)
  {
    if s == [] {
      NothingIsPlaced();
    } else {
      var front, b := s[..|s| - 1], s[|s| - 1];
      ScannerIsPlaced(front);
      PlacedStep(Since(front), ScanAll(START, front).scan, b);
      assert s == front + [b];
      SinceNext(front, b);
    }
  }

  lemma NothingIsPlaced()
    ensures Placed([], START)
  {
  }

  predicate WholeToken(t: seq<byte>) {
    PREFIX <= t && TokenBytes(t) && MIN_LEN <= |t| < MAX_LEN
  }

  /** A token that comes out of the stream has the prefix, only token bytes, 100 to 1023 of them; it
      stands in the text from the first occurrence of the prefix since the last reset, up to a byte
      that ends it. */
  lemma {:induction false} TokensAreReal(s: seq<byte>, t: seq<byte>) returns (k: nat)
    requires ScanAll(START, s).token == Some(t)
    ensures WholeToken(t) && 100 <= |t| <= 1023 && PREFIX <= t
    ensures k < |s| && !TokenByte(s[k]) && Stands(Since(s[..k]), t)
  {
    var n := |s| - 1;
    if ScanAll(START, s[..n]).token.Some? {
      k := TokensAreReal(s[..n], t);
      assert s[..n][..k] == s[..k];
    } else {
      k := n;
      ScannerIsPlaced(s[..n]);
      PlacedIsWhole(Since(s[..n]), t);
    }
  }

  lemma PlacedIsWhole(x: seq<byte>, t: seq<byte>)
    requires Placed(x, Token(t)) && MIN_LEN <= |t|
    ensures WholeToken(t) && Stands(x, t)
  {
    assert t[..|PREFIX|] == x[|x| - |t|..][..|PREFIX|];
  }

  /** The same at the end of the stream. */
  lemma TokenAtTheEnd(s: seq<byte>, t: seq<byte>)
    requires Finish(ScanAll(START, s).scan).token == Some(t)
    ensures WholeToken(t) && 100 <= |t| <= 1023 && Stands(Since(s), t)
  {
    ScannerIsPlaced(s);
    PlacedIsWhole(Since(s), t);
  }

  // ----- what is found -----

  /** Nothing happens before the prefix is complete. */
  lemma {:induction false} NothingBefore(s: seq<byte>)
    requires Absent(Plain(s))
    ensures ScanAll(START, s) == Fed(Prefix(LastOf(Plain(s), |PREFIX|)), None)
  {
    if s != [] {
      var front, b := s[..|s| - 1], s[|s| - 1];
      var x := Plain(front);
      if LineBreak(b) {
        NothingBefore(front);
      } else {
        forall i: nat | i <= |x| ensures !OccursAt(x, i) {
          OccursOneMore(x, b, i);
        }
        NothingBefore(front);
        Slides(x, b);
        OccursOneMore(x, b, if |x| + 1 < |PREFIX| then 0 else |x| + 1 - |PREFIX|);
      }
    }
  }

  lemma AbsentBefore(x: seq<byte>, b: byte)
    requires |x| + 1 >= |PREFIX| && FirstAt(x + [b], |x| + 1 - |PREFIX|)
    ensures Absent(x) && Slide(LastOf(x, |PREFIX|), b) == PREFIX
  {
    forall i: nat | i <= |x| ensures !OccursAt(x, i) {
      OccursOneMore(x, b, i);
    }
    Slides(x, b);
  }

  /** The byte that completes the first occurrence of the prefix starts the collection. */
  lemma EntersAtFirst(s: seq<byte>)
    requires |s| > 0 && !LineBreak(s[|s| - 1])
    requires |Plain(s)| >= |PREFIX| && FirstAt(Plain(s), |Plain(s)| - |PREFIX|)
    ensures ScanAll(START, s) == Fed(Token(PREFIX), None)
  {
    AbsentBefore(Plain(s[..|s| - 1]), s[|s| - 1]);
    NothingBefore(s[..|s| - 1]);
  }

  /** Token bytes, with line breaks only while fewer than `MIN_LEN` are collected. */
  predicate Wrapped(have: nat, w: seq<byte>) {
    forall i | 0 <= i < |w| :: TokenByte(w[i]) || (LineBreak(w[i]) && have + |Plain(w[..i])| < MIN_LEN)
  }

  lemma {:induction false} Collects(buf: seq<byte>, w: seq<byte>)
    requires Wrapped(|buf|, w) && |buf| + |Plain(w)| < MAX_LEN
    ensures ScanAll(Token(buf), w) == Fed(Token(buf + Plain(w)), None)
    decreases |w|
  {
    if w == [] {
      assert buf + Plain(w) == buf;
    } else {
      var front, b := w[..|w| - 1], w[|w| - 1];
      assert Wrapped(|buf|, front) by {
        forall i | 0 <= i < |front|
          ensures TokenByte(front[i]) || (LineBreak(front[i]) && |buf| + |Plain(front[..i])| < MIN_LEN)
        {
          assert front[..i] == w[..i] && front[i] == w[i];
        }
      }
      Collects(buf, front);
      var have := buf + Plain(front);
      if TokenByte(b) {
        assert buf + Plain(w) == have + [b];
        assert Feed(Token(have), b) == Fed(Token(have + [b]), None);
      } else {
        assert Feed(Token(have), b) == Fed(Token(have), None);
      }
    }
  }

  /** A token is found whole if `s` ends with the first prefix, `w` continues it, wrapped or not, to
      100 to 1023 bytes, and `b` ends it; whatever follows. */
  lemma {:induction false} TokenIsFound(s: seq<byte>, w: seq<byte>, b: byte, rest: seq<byte>)
    requires |s| > 0 && !LineBreak(s[|s| - 1])
    requires |Plain(s)| >= |PREFIX| && FirstAt(Plain(s), |Plain(s)| - |PREFIX|)
    requires Wrapped(|PREFIX|, w) && MIN_LEN <= |PREFIX| + |Plain(w)| < MAX_LEN && !TokenByte(b)
    ensures ScanAll(START, s + (w + ([b] + rest))).token == Some(PREFIX + Plain(w))
  {
    Ends(s, w, b, rest);
  }

  /** A shorter candidate that another byte than a line break ends is final all the same: the scanner
      is done and finds nothing, even if a whole token follows. */
  lemma {:induction false} ShortCandidateIsFinal(s: seq<byte>, w: seq<byte>, b: byte, rest: seq<byte>)
    requires |s| > 0 && !LineBreak(s[|s| - 1])
    requires |Plain(s)| >= |PREFIX| && FirstAt(Plain(s), |Plain(s)| - |PREFIX|)
    requires Wrapped(|PREFIX|, w) && |PREFIX| + |Plain(w)| < MIN_LEN && !TokenByte(b) && !LineBreak(b)
    ensures ScanAll(START, s + (w + ([b] + rest))) == Fed(Done, None)
  {
    Ends(s, w, b, rest);
  }

  lemma {:induction false} Ends(s: seq<byte>, w: seq<byte>, b: byte, rest: seq<byte>)
    requires |s| > 0 && !LineBreak(s[|s| - 1])
    requires |Plain(s)| >= |PREFIX| && FirstAt(Plain(s), |Plain(s)| - |PREFIX|)
    requires Wrapped(|PREFIX|, w) && |PREFIX| + |Plain(w)| < MAX_LEN && !TokenByte(b)
    requires LineBreak(b) ==> MIN_LEN <= |PREFIX| + |Plain(w)|
    ensures ScanAll(START, s + (w + ([b] + rest))) == Finish(Token(PREFIX + Plain(w)))
  {
    EntersAtFirst(s);
    Collects(PREFIX, w);
    ScanAcross(START, s, w + ([b] + rest));
    ScanAcross(Token(PREFIX), w, [b] + rest);
    var one := [b];
    assert one[..0] == [];
    ScanAcross(Token(PREFIX + Plain(w)), one, rest);
    DoneStays(rest);
  }

  // ----- when the scanner is switched off for nothing -----

  /** Since the last reset the text from the first prefix on is `t` and too short, and byte `k`, neither
      part of a token nor a line break, comes next. */
  predicate ShortEnd(s: seq<byte>, k: nat, t: seq<byte>) {
    && k < |s| && !TokenByte(s[k]) && !LineBreak(s[k])
    && |PREFIX| <= |t| < MIN_LEN && TokenBytes(t) && Stands(Since(s[..k]), t)
  }

  /** From the first prefix on the text is long enough, or it has a byte that is not part of a token. */
  predicate Over(x: seq<byte>, i: nat) {
    FirstAt(x, i) && (|x| - i >= MIN_LEN || !TokenBytes(x[i..]))
  }

  ghost predicate Closed(x: seq<byte>) {
    exists i: nat :: Over(x, i)
  }

  lemma OverStays(x: seq<byte>, b: byte, i: nat)
    requires Over(x, i)
    ensures Over(x + [b], i)
  {
    forall j: nat | j <= i ensures OccursAt(x + [b], j) <==> OccursAt(x, j) {
      OccursOneMore(x, b, j);
    }
    if !TokenBytes(x[i..]) {
      var n :| 0 <= n < |x[i..]| && !TokenByte(x[i..][n]);
      assert (x + [b])[i..][n] == x[i..][n];
    }
  }

  /** A candidate that a byte has ended leaves the text closed. */
  lemma EndCloses(x: seq<byte>, buf: seq<byte>, b: byte)
    requires Stands(x, buf) && |PREFIX| <= |buf| && !TokenByte(b) && (LineBreak(b) ==> |buf| >= MIN_LEN)
    ensures Closed(if LineBreak(b) then x else x + [b])
  {
    var i := |x| - |buf|;
    if LineBreak(b) {
      assert Over(x, i);
    } else {
      forall j: nat | j <= i ensures OccursAt(x + [b], j) <==> OccursAt(x, j) {
        OccursOneMore(x, b, j);
      }
      assert (x + [b])[i..][|buf|] == b;
      assert Over(x + [b], i);
    }
  }

  /** Once the scanner is done, the text stays closed. */
  lemma {:induction false} DoneIsClosed(s: seq<byte>)
    requires ScanAll(START, s).scan == Done
    ensures Closed(Since(s))
  {
    var front, b := s[..|s| - 1], s[|s| - 1];
    var scan, x := ScanAll(START, front).scan, Since(front);
    assert s == front + [b];
    SinceNext(front, b);
    if scan == Done {
      DoneIsClosed(front);
      var i: nat :| Over(x, i);
      if !LineBreak(b) {
        OverStays(x, b, i);
      }
    } else {
      ScannerIsPlaced(front);
      EndCloses(x, scan.buf, b);
    }
  }

  /** A short candidate is not closed: it stands at the only place there is. */
  lemma ShortIsOpen(x: seq<byte>, t: seq<byte>)
    requires Stands(x, t) && |t| < MIN_LEN && TokenBytes(t)
    ensures !Closed(x)
  {
    forall i: nat ensures !Over(x, i) {
      assert FirstAt(x, i) ==> i == |x| - |t|;
    }
  }

  /** At a short end the scanner has just what stands there, and is switched off. */
  lemma ShortEndSwitchesOff(s: seq<byte>, k: nat, t: seq<byte>)
    requires ShortEnd(s, k, t)
    ensures ScanAll(START, s) == Fed(Done, None)
  {
    var f, x := ScanAll(START, s[..k]), Since(s[..k]);
    ScannerIsPlaced(s[..k]);
    OnlyOnce(s[..k]);
    if f.scan == Done {
      DoneIsClosed(s[..k]);
      ShortIsOpen(x, t);
    }
    assert f.scan.Token? && f.scan.buf == t && f.token == None;
    assert s[..k + 1][..k] == s[..k];
    assert ScanAll(START, s[..k + 1]) == Fed(Done, None);
    AfterDone(START, s, k + 1);
  }

  /** A scanner that is done and has found nothing passed a short end. */
  lemma {:induction false} SwitchedOffAt(s: seq<byte>) returns (k: nat, t: seq<byte>)
    requires ScanAll(START, s) == Fed(Done, None)
    ensures ShortEnd(s, k, t)
  {
    var front := s[..|s| - 1];
    var scan := ScanAll(START, front).scan;
    if scan == Done {
      k, t := SwitchedOffAt(front);
      assert front[..k] == s[..k];
    } else {
      k, t := |front|, scan.buf;
      ScannerIsPlaced(front);
    }
  }

  /** For every stream: the scanner is switched off without a token exactly if somewhere a candidate shorter
      than `MIN_LEN` is ended by a byte that is not a line break. */
  lemma SwitchedOffIff(s: seq<byte>)
    ensures ScanAll(START, s) == Fed(Done, None) <==> exists k: nat, t :: ShortEnd(s, k, t)
  {
    if ScanAll(START, s) == Fed(Done, None) {
      var k, t := SwitchedOffAt(s);
    }
    if k: nat, t :| ShortEnd(s, k, t) {
      ShortEndSwitchesOff(s, k, t);
    }
  }

  // ----- a terminal, read in chunks -----

  /** What is captured from a whole terminal session. */
  function Captured(s: seq<byte>): Option<seq<byte>> {
    var f := ScanAll(START, Strip(Text, s));
    Then(f, Finish(f.scan)).token
  }

  class CaptureObserver {
    const ansi: AnsiStripper
    const scanner: TokenScanner
    var stored: Option<seq<byte>>

    constructor ()
      ensures fresh(ansi) && fresh(scanner) && Saw([])
    {
      ansi := new AnsiStripper();
      scanner := new TokenScanner();
      stored := None;
    }

    /** The observer is where reading `s` at once would have left it. */
    ghost predicate Saw(s: seq<byte>)
      reads this, ansi, scanner
    {
      ansi.state == AnsiAfter(Text, s) && Fed(scanner.scan, stored) == ScanAll(START, Strip(Text, s))
    }

    method OnOutput(chunk: seq<byte>, ghost seen: seq<byte>)
      requires Saw(seen)
      modifies this, ansi, scanner
      ensures Saw(seen + chunk)
    {
      StripAcross(Text, seen, chunk);
      ScanAcross(START, Strip(Text, seen), Strip(ansi.state, chunk));
      OnlyOnce(Strip(Text, seen));
      ghost var before := scanner.scan;
      var plain := ansi.Push(chunk);
      var token := scanner.Push(plain);
      if token.Some? {
        DoneStays(plain);
        stored := token;
      }
    }

    method OnClose(ghost seen: seq<byte>)
      requires Saw(seen)
      modifies this, ansi, scanner
      ensures stored == Captured(seen)
    {
      OnlyOnce(Strip(Text, seen));
      var token := scanner.Close();
      if token.Some? {
        stored := token;
      }
    }
  }

  /** After the token was found nothing is looked for. */
  lemma {:induction false} OnlyOnce(s: seq<byte>)
    ensures ScanAll(START, s).token.Some? ==> ScanAll(START, s).scan == Done
  {
    if s != [] {
      OnlyOnce(s[..|s| - 1]);
    }
  }

  /** What is captured does not depend on where the chunks were cut. */
  method Observe(chunks: seq<seq<byte>>) returns (token: Option<seq<byte>>)
    ensures token == Captured(Flat(chunks))
  {
    var o := new CaptureObserver();
    for n := 0 to |chunks|
      invariant fresh(o) && fresh(o.ansi) && fresh(o.scanner) && o.Saw(Flat(chunks[..n]))
    {
      assert chunks[..n + 1][..n] == chunks[..n];
      o.OnOutput(chunks[n], Flat(chunks[..n]));
    }
    assert chunks[..|chunks|] == chunks;
    o.OnClose(Flat(chunks));
    token := o.stored;
  }
}
