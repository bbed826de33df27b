/** The broadcast hub (realtime/src/hub.rs): a bounded ring, on which sandbox-proxy also sends the names
    of changed Projects. */
module Hub {
  datatype Frame = Event(id: nat, repo: string) | Resync

  predicate VisibleTo(f: Frame, repos: seq<string>) {
    f.Resync? || f.repo in repos
  }

  /** What a receiver at `pos` gets when `published` was sent through a ring of `cap` slots. */
  datatype Received<F> = Got(f: F) | Lagged(missed: nat) | Nothing

  function Oldest(total: nat, cap: nat): nat {
    if total <= cap then 0 else total - cap
  }

  function Receive<F>(published: seq<F>, cap: nat, pos: nat): (r: (Received<F>, nat)) {
    var low := Oldest(|published|, cap);
    if pos < low then (Lagged(low - pos), low)
    else if pos < |published| then (Got(published[pos]), pos + 1)
    else (Nothing, pos)
  }

  /** A receiver gets what was published at its place if that is among the newest `cap` frames; if it is older,
      it is told how many frames it missed, and goes on with the oldest of those `cap`. */
  lemma ReceiveIs<F>(published: seq<F>, cap: nat, pos: nat)
    requires pos <= |published| && cap > 0
    ensures var (r, next) := Receive(published, cap, pos);
            && (r.Nothing? <==> pos == |published| && next == pos) && (r.Got? <==> |published| - cap <= pos < |published|)
            && (r.Got? ==> r.f == published[pos] && next == pos + 1)
            && (r.Lagged? ==> next == |published| - cap == pos + r.missed && r.missed > 0)
  {
  }

  class Hub<F> {
    const cap: nat
    var ring: seq<F>
    var total: nat
    ghost var published: seq<F>

    ghost predicate Valid()
      reads this
    {
      && cap > 0 && total == |published|
      && ring == published[Oldest(total, cap)..]
    }

    constructor (buffer: nat)
      requires buffer > 0
      ensures Valid() && published == [] && cap == buffer
    {
      cap, ring, total, published := buffer, [], 0, [];
    }

    method Publish(f: F)
      requires Valid()
      modifies this
      ensures Valid() && published == old(published) + [f]
    {
      ring := ring + [f];
      if |ring| > cap {
        ring := ring[1..];
      }
      total, published := total + 1, published + [f];
      assert ring == published[Oldest(total, cap)..];
    }

    /** A receiver starts after everything sent so far. */
    method Subscribe() returns (pos: nat)
      requires Valid()
      ensures pos == |published|
    {
      pos := total;
    }

    method Recv(pos: nat) returns (r: Received<F>, next: nat)
      requires Valid() && pos <= total
      ensures (r, next) == Receive(published, cap, pos)
    {
      var low := total - |ring|;
      if pos < low {
        r, next := Lagged(low - pos), low;
      } else if pos < total {
        assert ring[pos - low] == published[pos];
        r, next := Got(ring[pos - low]), pos + 1;
      } else {
        r, next := Nothing, pos;
      }
    }
  }

  /** The ring holds the newest frames, as many as it has slots. */
  lemma RingIs<F>(h: Hub<F>)
    requires h.Valid()
    ensures |h.ring| == (if |h.published| < h.cap then |h.published| else h.cap)
    ensures h.ring == h.published[|h.published| - |h.ring|..]
  {
  }
}
