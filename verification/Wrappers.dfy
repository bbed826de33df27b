/** Optional values, results and bytes, as the Rust sources use `Option`, `Result` and `u8`. */
module Wrappers {

  datatype Option<+T> = None | Some(value: T)

  datatype Result<+T, +R> = Success(value: T) | Failure(error: R)

  type byte = b: nat | b < 256

  predicate Alphanumeric(b: byte) {
    (48 <= b <= 57) || (65 <= b <= 90) || (97 <= b <= 122)
  }

  /** An ASCII letter or digit, by its character. */
  predicate LetterOrDigit(c: char) {
    c in "0123456789" || c in "ABCDEFGHIJKLMNOPQRSTUVWXYZ" || c in "abcdefghijklmnopqrstuvwxyz"
  }

  lemma AlphanumericIff(b: byte)
    ensures Alphanumeric(b) <==> LetterOrDigit(b as char)
  {
    var digits, upper, lower := "0123456789", "ABCDEFGHIJKLMNOPQRSTUVWXYZ", "abcdefghijklmnopqrstuvwxyz";
    assert forall k | 0 <= k < |digits| :: digits[k] as int == 48 + k;
    assert forall k | 0 <= k < |upper| :: upper[k] as int == 65 + k;
    assert forall k | 0 <= k < |lower| :: lower[k] as int == 97 + k;
    if 48 <= b <= 57 {
      assert digits[b - 48] == b as char;
    } else if 65 <= b <= 90 {
      assert upper[b - 65] == b as char;
    } else if 97 <= b <= 122 {
      assert lower[b - 97] == b as char;
    }
  }

  /** A stream that arrived in chunks. */
  function Flat(chunks: seq<seq<byte>>): seq<byte> {
    if chunks == [] then [] else Flat(chunks[..|chunks| - 1]) + chunks[|chunks| - 1]
  }

  /** The numbers from `lo` up to `hi`. */
  function Span(lo: nat, hi: nat): (r: set<nat>)
    ensures lo <= hi ==> |r| == hi - lo
    ensures forall n :: n in r <==> lo <= n < hi
    decreases hi - lo
  {
    if lo >= hi then {} else Span(lo + 1, hi) + {lo}
  }

  lemma SmallerSet<T>(a: set<T>, b: set<T>)
    requires a <= b
    ensures |a| <= |b|
  {
    assert b == a + (b - a);
  }
}
