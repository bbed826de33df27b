/**
 The `comment` action (tracks/src/actions.rs and `action_step` of tracks/src/exec.rs): the intent
 row first, then one POST; a drive that finds the row searches the subject's comments for the
 marker before it posts. The subject's comments only grow, and a drive calls GitHub only while it
 holds the lease.
 */
module CommentAction {
  import opened Wrappers

  const PAGE: nat := 100
  const MAX_COMMENT_PAGES: nat := 30
  const REACH: nat := 3000

  // ----- the marker -----

  function Digit(n: nat): char
    requires n < 10
  {
    ['0', '1', '2', '3', '4', '5', '6', '7', '8', '9'][n]
  }

  function Decimal(n: nat): (s: string)
    ensures s != [] && ':' !in s
  {
    if n < 10 then [Digit(n)] else Decimal(n / 10) + [Digit(n % 10)]
  }

  function Marker(run: string, node: string, visit: nat): string {
    "<!-- ez-tracks:" + run + ":" + node + ":" + Decimal(visit) + " -->"
  }

  lemma {:induction false} DecimalInjective(a: nat, b: nat)
    requires Decimal(a) == Decimal(b)
    ensures a == b
  {
    var s, t := Decimal(a), Decimal(b);
    assert s[|s| - 1] == Digit(a % 10) && t[|t| - 1] == Digit(b % 10);
    if a >= 10 && b >= 10 {
      assert s[..|s| - 1] == Decimal(a / 10) && t[..|t| - 1] == Decimal(b / 10);
      DecimalInjective(a / 10, b / 10);
    }
  }

  /** A text split at its last colon. */
  lemma LastColon(a: string, x: string, b: string, y: string)
    requires a + ":" + x == b + ":" + y && ':' !in x && ':' !in y
    ensures a == b && x == y
  {
    var s := a + ":" + x;
    assert s[|a|] == ':' && s[|b|] == ':';
    assert s[..|a|] == a && s[|a| + 1..] == x;
    assert (b + ":" + y)[..|b|] == b && (b + ":" + y)[|b| + 1..] == y;
  }

  lemma FirstColon(x: string, a: string, y: string, b: string)
    requires x + ":" + a == y + ":" + b && ':' !in x && ':' !in y
    ensures x == y && a == b
  {
    var s := x + ":" + a;
    assert s[|x|] == ':' && (y + ":" + b)[|y|] == ':';
    assert s[..|x|] == x && s[|x| + 1..] == a;
    assert (y + ":" + b)[..|y|] == y && (y + ":" + b)[|y| + 1..] == b;
  }

  /** A marker names one node visit of one run, whatever the node is called (a run id has no colon). */
  lemma MarkerInjective(run: string, node: string, visit: nat, run': string, node': string, visit': nat)
    requires ':' !in run && ':' !in run'
    ensures Marker(run, node, visit) == Marker(run', node', visit') <==> run == run' && node == node' && visit == visit'
  {
    if Marker(run, node, visit) == Marker(run', node', visit') {
      var pre, post := "<!-- ez-tracks:", " -->";
      var m, m' := Marker(run, node, visit), Marker(run', node', visit');
      var body, body' := run + ":" + node + ":" + Decimal(visit), run' + ":" + node' + ":" + Decimal(visit');
      assert m == pre + body + post && m' == pre + body' + post;
      assert m[|pre|..|m| - |post|] == body && m'[|pre|..|m'| - |post|] == body';
      LastColon(run + ":" + node, Decimal(visit), run' + ":" + node', Decimal(visit'));
      FirstColon(run, node, run', node');
      DecimalInjective(visit, visit');
    }
  }

  // ----- one call -----

  /** `marked`: its body contains the marker; `ours`: posted by this action. */
  datatype Comment = Comment(marked: bool, ours: bool)

  const OURS := Comment(true, true)

  function Min(a: nat, b: nat): nat {
    if a < b then a else b
  }

  /** Page `n` (from 1) of a listing. */
  function Page(cs: seq<Comment>, n: nat): seq<Comment>
    requires n >= 1
  {
    cs[Min((n - 1) * PAGE, |cs|)..Min(n * PAGE, |cs|)]
  }

  predicate Hit(cs: seq<Comment>) {
    exists i :: 0 <= i < |cs| && cs[i].marked
  }

  predicate NoneBefore(cs: seq<Comment>, n: nat) {
    forall i | 0 <= i < n && i < |cs| :: !cs[i].marked
  }

  /** A page without a hit extends what is known to hold no marker. */
  lemma PageMissed(cs: seq<Comment>, n: nat)
    requires n >= 1 && NoneBefore(cs, (n - 1) * PAGE) && !Hit(Page(cs, n))
    ensures NoneBefore(cs, n * PAGE)
    ensures |Page(cs, n)| < PAGE ==> NoneBefore(cs, |cs|)
  {
    forall i | 0 <= i < n * PAGE && i < |cs|
      ensures !cs[i].marked
    {
      if i >= (n - 1) * PAGE {
        assert Page(cs, n)[i - (n - 1) * PAGE] == cs[i];
      }
    }
  }

  datatype Outcome = Found | Posted | Failed(sent: bool)

  class Subject {
    var comments: seq<Comment>

    /** Other people comment; nobody deletes. */
    method Interfere()
      modifies this
      ensures old(comments) <= comments
      ensures forall i | |old(comments)| <= i < |comments| :: !comments[i].ours
    {
      var n: nat := *;
      while n > 0
        invariant old(comments) <= comments
        invariant forall i | |old(comments)| <= i < |comments| :: !comments[i].ours
      {
        var marked: bool := *;
        comments := comments + [Comment(marked, false)];
        n := n - 1;
      }
    }

    /** `GithubActions::comment`: on a replay the paged search, then the POST. A request may fail,
        and the POST may take effect and its reply be lost; without such `trouble` a replay finds the comment
        if one of the first 3000 is marked, and posts if none is. */
    method Post(replay: bool) returns (out: Outcome, ghost trouble: bool)
      modifies this
      ensures old(comments) <= comments
      ensures forall i | |old(comments)| <= i < |comments| && comments[i].ours ::
                i == |comments| - 1 && (out.Posted? || (out.Failed? && out.sent))
      ensures out.Posted? || (out.Failed? && out.sent) ==>
                && |comments| > |old(comments)| && comments[|comments| - 1] == OURS
                && (replay ==> NoneBefore(old(comments), REACH))
      ensures out.Found? ==> replay && Hit(comments)
      ensures out.Failed? <==> trouble
      ensures !trouble && replay && !NoneBefore(old(comments), 3000) ==> out.Found?
      ensures out.Found? ==> !NoneBefore(comments, 3000)
      ensures !trouble && !replay ==> out.Posted?
    {
      trouble := false;
      if replay {
        var page := 1;
        var searching := true;
        while searching && page <= MAX_COMMENT_PAGES
          invariant 1 <= page <= MAX_COMMENT_PAGES + 1
          invariant old(comments) <= comments
          invariant forall i | |old(comments)| <= i < |comments| :: !comments[i].ours
          invariant NoneBefore(old(comments), (page - 1) * PAGE)
          invariant !searching ==> NoneBefore(old(comments), |old(comments)|)
          decreases MAX_COMMENT_PAGES + 1 - page, searching
        {
          Interfere();
          var failed: bool := *;
          if failed {
            return Failed(false), true;
          }
          var items := Page(comments, page);
          if Hit(items) {
            HitInReach(comments, page);
            return Found, false;
          }
          PagesAgree(old(comments), comments, page);
          PageMissed(old(comments), page);
          if |items| < PAGE {
            searching := false;
          } else {
            page := page + 1;
          }
        }
      }
      Interfere();
      var reached: bool := *;
      if !reached {
        return Failed(false), true;
      }
      comments := comments + [OURS];
      var answered: bool := *;
      out, trouble := if answered then Posted else Failed(true), !answered;
    }
  }

  lemma HitInReach(cs: seq<Comment>, n: nat)
    requires 1 <= n <= MAX_COMMENT_PAGES && Hit(Page(cs, n))
    ensures !NoneBefore(cs, 3000)
  {
    var i :| 0 <= i < |Page(cs, n)| && Page(cs, n)[i].marked;
    assert Page(cs, n)[i] == cs[(n - 1) * PAGE + i];
  }

  /** Reading a page of a longer listing shows at least what it held before. */
  lemma PagesAgree(was: seq<Comment>, now: seq<Comment>, n: nat)
    requires was <= now && n >= 1 && !Hit(Page(now, n))
    ensures !Hit(Page(was, n))
    ensures |Page(now, n)| < PAGE ==> |Page(was, n)| < PAGE
  {
    forall i | 0 <= i < |Page(was, n)|
      ensures !Page(was, n)[i].marked
    {
      assert Page(was, n)[i] == was[(n - 1) * PAGE + i] == now[(n - 1) * PAGE + i] == Page(now, n)[i];
    }
  }

  // ----- crashes -----

  datatype Pc = Begin | Searching(page: nat) | Posting | Stopped

  type DriveId = nat

  /** One node visit: its subject's comments, its `node_runs` row and the drives that work on it. */
  datatype System = System(comments: seq<Comment>, row: bool, owner: Option<DriveId>,
                           drives: map<DriveId, Pc>, nextDrive: DriveId)

  datatype Label =
    | Comments(c: Comment)      // somebody else comments
    | Take                      // another drive gets the lease
    | Intent(d: DriveId)        // INSERT ... ON CONFLICT DO NOTHING
    | Get(d: DriveId)           // one page of the search
    | Send(d: DriveId)          // the POST takes effect; the drive may or may not see the reply
    | Stop(d: DriveId)          // a crash or an error

  predicate Calls(s: System, d: DriveId) {
    d in s.drives && s.owner == Some(d)
  }

  function AfterPage(items: seq<Comment>, page: nat): Pc {
    if Hit(items) then Stopped
    else if |items| < PAGE || page >= MAX_COMMENT_PAGES then Posting
    else Searching(page + 1)
  }

  function Step(s: System, l: Label): System {
    match l
    case Comments(c) => if c.ours then s else s.(comments := s.comments + [c])
    case Take => s.(owner := Some(s.nextDrive), drives := s.drives[s.nextDrive := Begin], nextDrive := s.nextDrive + 1)
    case Intent(d) =>
      if d !in s.drives || s.drives[d] != Begin then s
      else if s.row then s.(drives := s.drives[d := Searching(1)])
      else s.(row := true, drives := s.drives[d := Posting])
    case Get(d) =>
      if !Calls(s, d) || !s.drives[d].Searching? || s.drives[d].page == 0 then s
      else s.(drives := s.drives[d := AfterPage(Page(s.comments, s.drives[d].page), s.drives[d].page)])
    case Send(d) =>
      if !Calls(s, d) || s.drives[d] != Posting then s
      else s.(comments := s.comments + [OURS], drives := s.drives[d := Stopped])
    case Stop(d) => if d in s.drives then s.(drives := s.drives[d := Stopped]) else s
  }

  function Run(s: System, ls: seq<Label>): System
    decreases |ls|
  {
    if ls == [] then s else Step(Run(s, ls[..|ls| - 1]), ls[|ls| - 1])
  }

  /** A subject with `cs` on it before the node is visited. */
  predicate Initial(s: System) {
    && !s.row && s.owner == None && s.drives == map[]
    && forall i | 0 <= i < |s.comments| :: !s.comments[i].ours
  }

  predicate NoneOurs(cs: seq<Comment>, n: nat) {
    forall i | 0 <= i < n && i < |cs| :: !cs[i].ours
  }

  /** The search goes through 3000 comments and finds none marked. */
  predicate OutOfReach(cs: seq<Comment>) {
    |cs| >= REACH && NoneBefore(cs, REACH)
  }

  /** Two comments of ours only if the search for the first one misses it. */
  predicate Unique(cs: seq<Comment>) {
    forall i, j | 0 <= i < j < |cs| && cs[i].ours && cs[j].ours :: i >= REACH && OutOfReach(cs)
  }

  predicate Inv(s: System) {
    && Unique(s.comments)
    && (forall i | 0 <= i < |s.comments| && s.comments[i].ours :: s.comments[i].marked)
    && (!s.row ==> NoneOurs(s.comments, |s.comments|))
    && (forall d | d in s.drives :: d < s.nextDrive && (s.drives[d].Searching? || s.drives[d].Posting? ==> s.row))
    && (s.owner.Some? && s.owner.value in s.drives ==>
          match s.drives[s.owner.value]
          case Begin => true
          case Searching(page) =>
            && 1 <= page <= MAX_COMMENT_PAGES
            && NoneBefore(s.comments, (page - 1) * PAGE) && (page - 1) * PAGE <= |s.comments|
          case Posting => NoneOurs(s.comments, |s.comments|) || OutOfReach(s.comments)
          case Stopped => true)
  }

  lemma GetKeeps(s: System, d: DriveId)
    requires Inv(s)
    ensures Inv(Step(s, Get(d)))
  {
    if Calls(s, d) && s.drives[d].Searching? {
      var page := s.drives[d].page;
      if !Hit(Page(s.comments, page)) {
        PageMissed(s.comments, page);
      }
    }
  }

  lemma StepKeeps(s: System, l: Label)
    requires Inv(s)
    ensures Inv(Step(s, l))
  {
    if l.Get? {
      GetKeeps(s, l.d);
    }
  }

  lemma {:induction false} RunKeeps(s: System, ls: seq<Label>)
    requires Inv(s)
    ensures Inv(Run(s, ls))
  {
    if ls != [] {
      RunKeeps(s, ls[..|ls| - 1]);
      StepKeeps(Run(s, ls[..|ls| - 1]), ls[|ls| - 1]);
    }
  }

  /** Whatever point drives crash at and whichever replies are lost, a second comment of this node
      visit is only ever posted when the first one has 3000 or more comments before it and none of the
      first 3000 is marked. */
  lemma AtMostOneComment(s: System, ls: seq<Label>, i: nat, j: nat)
    requires Initial(s)
    requires i < j < |Run(s, ls).comments| && Run(s, ls).comments[i].ours && Run(s, ls).comments[j].ours
    ensures i >= REACH && NoneBefore(Run(s, ls).comments, REACH)
  {
    RunKeeps(s, ls);
  }

  // ----- past the limit -----

  function Gets(d: DriveId, n: nat): seq<Label> {
    if n == 0 then [] else Gets(d, n - 1) + [Get(d)]
  }

  lemma FullPage(cs: seq<Comment>, n: nat)
    requires 1 <= n <= MAX_COMMENT_PAGES && |cs| >= REACH && NoneBefore(cs, REACH)
    ensures AfterPage(Page(cs, n), n) == if n == MAX_COMMENT_PAGES then Posting else Searching(n + 1)
  {
    var items := Page(cs, n);
    assert |items| == PAGE;
    assert forall i | 0 <= i < PAGE :: items[i] == cs[(n - 1) * PAGE + i];
  }

  /** `s` with drive `d` at a place of the search. */
  function PcAt(s: System, d: DriveId, pc: Pc): System {
    s.(drives := s.drives[d := pc])
  }

  lemma GetMisses(s: System, d: DriveId, n: nat)
    requires s.owner == Some(d) && 1 <= n <= MAX_COMMENT_PAGES
    requires |s.comments| >= REACH && NoneBefore(s.comments, REACH)
    ensures Step(PcAt(s, d, Searching(n)), Get(d)) == PcAt(s, d, if n == MAX_COMMENT_PAGES then Posting else Searching(n + 1))
  {
    FullPage(s.comments, n);
    var pc := AfterPage(Page(s.comments, n), n);
    assert s.drives[d := Searching(n)][d := pc] == s.drives[d := pc];
  }

  lemma RunMore(s: System, ls: seq<Label>, l: Label)
    ensures Run(s, ls + [l]) == Step(Run(s, ls), l)
  {
    assert (ls + [l])[..|ls|] == ls;
  }

  /** The search of a drive that finds 3000 unmarked comments first. */
  lemma {:induction false} SearchMisses(s: System, d: DriveId, n: nat)
    requires s.owner == Some(d) && n < MAX_COMMENT_PAGES
    requires |s.comments| >= REACH && NoneBefore(s.comments, REACH)
    ensures Run(PcAt(s, d, Searching(1)), Gets(d, n)) == PcAt(s, d, Searching(n + 1))
    decreases n
  {
    if n > 0 {
      SearchMisses(s, d, n - 1);
      GetMisses(s, d, n);
      RunMore(PcAt(s, d, Searching(1)), Gets(d, n - 1), Get(d));
    }
  }

  lemma {:induction false} RunAppend(s: System, a: seq<Label>, b: seq<Label>)
    ensures Run(s, a + b) == Run(Run(s, a), b)
  {
    if b == [] {
      assert a + b == a;
    } else {
      RunAppend(s, a, b[..|b| - 1]);
      assert (a + b)[..|a + b| - 1] == a + b[..|b| - 1];
    }
  }

  /** A first drive posts and stops before it sees the reply; a second one takes over. */
  lemma Handover(s: System)
    requires Initial(s)
    ensures var a, b := s.nextDrive, s.nextDrive + 1;
            Run(s, [] + [Take] + [Intent(a)] + [Send(a)] + [Take] + [Intent(b)])
              == System(s.comments + [OURS], true, Some(b), map[a := Stopped, b := Searching(1)], b + 1)
  {
    var a, b := s.nextDrive, s.nextDrive + 1;
    RunMore(s, [], Take);
    RunMore(s, [] + [Take], Intent(a));
    RunMore(s, [] + [Take] + [Intent(a)], Send(a));
    RunMore(s, [] + [Take] + [Intent(a)] + [Send(a)], Take);
    RunMore(s, [] + [Take] + [Intent(a)] + [Send(a)] + [Take], Intent(b));
  }

  /** On a subject with 3000 or more unmarked comments, a lost reply and a replay post twice. */
  lemma DuplicatePastReach(s: System, pages: nat)
    requires Initial(s) && |s.comments| >= REACH && NoneBefore(s.comments, REACH)
    requires pages == MAX_COMMENT_PAGES
    ensures var a, b := s.nextDrive, s.nextDrive + 1;
            Run(s, [] + [Take] + [Intent(a)] + [Send(a)] + [Take] + [Intent(b)] + Gets(b, pages) + [Send(b)]).comments
              == s.comments + [OURS] + [OURS]
  {
    var a, b := s.nextDrive, s.nextDrive + 1;
    var ls := [] + [Take] + [Intent(a)] + [Send(a)] + [Take] + [Intent(b)];
    Handover(s);
    SearchesAll(s, ls, b, pages, s.comments + [OURS]);
  }

  lemma SendPosts(s: System, d: DriveId)
    requires Calls(s, d) && s.drives[d] == Posting
    ensures Step(s, Send(d)).comments == s.comments + [OURS]
  {
  }

  // ----- exactly when -----

  lemma {:induction false} CommentsGrow(s: System, ls: seq<Label>)
    ensures s.comments <= Run(s, ls).comments
    decreases |ls|
  {
    if ls != [] {
      CommentsGrow(s, ls[..|ls| - 1]);
    }
  }

  /** A replay that searches past 3000 unmarked comments posts. */
  lemma ReplayPosts(s: System, pages: nat)
    requires s.row && OutOfReach(s.comments) && pages == MAX_COMMENT_PAGES
    ensures Run(s, [Take] + [Intent(s.nextDrive)] + Gets(s.nextDrive, pages) + [Send(s.nextDrive)]).comments == s.comments + [OURS]
  {
    var b := s.nextDrive;
    var ls := [Take] + [Intent(b)];
    TakesOver(s);
    SearchesAll(s, ls, b, pages, s.comments);
  }

  /** Run `ls` led to the first page of the search; it goes through all pages and posts. */
  lemma SearchesAll(s: System, ls: seq<Label>, d: DriveId, pages: nat, cs: seq<Comment>)
    requires var t := Run(s, ls); t.comments == cs && t.owner == Some(d) && d in t.drives && t.drives[d] == Searching(1)
    requires OutOfReach(cs) && pages == MAX_COMMENT_PAGES
    ensures Run(s, ls + Gets(d, pages) + [Send(d)]).comments == cs + [OURS]
  {
    var t, gets := Run(s, ls), Gets(d, pages);
    SearchEnds(t, d, pages);
    RunAppend(s, ls, gets);
    RunMore(s, ls + gets, Send(d));
    SendPosts(PcAt(t, d, Posting), d);
  }

  lemma SearchEnds(t: System, d: DriveId, pages: nat)
    requires t.owner == Some(d) && d in t.drives && t.drives[d] == Searching(1)
    requires OutOfReach(t.comments) && pages == MAX_COMMENT_PAGES
    ensures Run(t, Gets(d, pages)) == PcAt(t, d, Posting)
  {
    assert t.drives[d := Searching(1)] == t.drives;
    assert PcAt(t, d, Searching(1)) == t;
    SearchMisses(t, d, pages - 1);
    GetMisses(t, d, pages);
    RunMore(t, Gets(d, pages - 1), Get(d));
  }

  lemma TakesOver(s: System)
    requires s.row
    ensures var b := s.nextDrive; var t := Run(s, [Take] + [Intent(b)]);
            t.comments == s.comments && t.owner == Some(b) && b in t.drives && t.drives[b] == Searching(1)
  {
    var b := s.nextDrive;
    assert [Take][..0] == [];
    RunMore(s, [Take], Intent(b));
  }

  ghost predicate SecondAfter(s: System, more: seq<Label>, i: nat) {
    exists j :: i < j < |Run(s, more).comments| && Run(s, more).comments[j].ours
  }

  /** Once the first comment stands at `i`, a second one can follow exactly if `i` is past the 3000th and
      none of the first 3000 is marked; a comment of somebody else's with the marker among them stops the
      search just as well. */
  lemma SecondFollowsIff(s0: System, ls: seq<Label>, i: nat)
    requires Initial(s0) && i < |Run(s0, ls).comments| && Run(s0, ls).comments[i].ours
    ensures (exists more :: SecondAfter(Run(s0, ls), more, i))
            <==> i >= REACH && NoneBefore(Run(s0, ls).comments, REACH)
  {
    var s := Run(s0, ls);
    RunKeeps(s0, ls);
    if more :| SecondAfter(s, more, i) {
      var j :| i < j < |Run(s, more).comments| && Run(s, more).comments[j].ours;
      RunKeeps(s, more);
      CommentsGrow(s, more);
      assert Run(s, more).comments[i] == s.comments[i];
      assert forall k | 0 <= k < REACH && k < |s.comments| :: s.comments[k] == Run(s, more).comments[k];
    }
    if i >= REACH && NoneBefore(s.comments, REACH) {
      ReplayPosts(s, MAX_COMMENT_PAGES);
      var more := [Take] + [Intent(s.nextDrive)] + Gets(s.nextDrive, MAX_COMMENT_PAGES) + [Send(s.nextDrive)];
      assert Run(s, more).comments[|s.comments|] == OURS;
      assert SecondAfter(s, more, i);
    }
  }
}
