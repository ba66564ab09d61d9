/** The pieces of Rust's `u32` and `Vec<u32>` that the B-tree node relies on:
    the key type, and `Vec::drain` over a range, written as a pure function on
    the vector's contents. `push` and `extend` are sequence concatenation. */
module Vec {

  /** Rust's `u32`: an unsigned 32-bit key. */
  newtype u32 = x: int | 0 <= x < 0x1_0000_0000

  /** What `v.drain(lo..hi)` leaves behind: the elements it yields (`taken`)
      and the contents of `v` afterwards (`kept`). */
  datatype Drained = Drained(taken: seq<u32>, kept: seq<u32>)

  /** `v.drain(lo..hi)` on a vector holding `s`. Rust panics when the range is
      out of bounds; every call in the node stays in bounds, which the
      precondition records. The contract pins the result down completely:
      `taken` has the range's length, and putting it back at `lo` restores `s`. */
  function Drain(s: seq<u32>, lo: nat, hi: nat): (r: Drained)
    requires lo <= hi <= |s|
    ensures |r.taken| == hi - lo
    ensures |r.kept| == |s| - (hi - lo)
    ensures r.kept[..lo] + r.taken + r.kept[lo..] == s
  {
    var kept := s[..lo] + s[hi..];
    assert kept[..lo] == s[..lo] && kept[lo..] == s[hi..];
    assert s[..lo] + s[lo..hi] + s[hi..] == s;
    Drained(s[lo..hi], kept)
  }

  /** The contract of `Drain` determines its result: any split of `s` into a
      removed run of length `hi - lo` at `lo` and a remainder is the one
      `Drain` returns. */
  lemma DrainUnique(s: seq<u32>, lo: nat, hi: nat, taken: seq<u32>, kept: seq<u32>)
    requires lo <= hi <= |s|
    requires |taken| == hi - lo && lo <= |kept|
    requires kept[..lo] + taken + kept[lo..] == s
    ensures Drain(s, lo, hi) == Drained(taken, kept)
  {
  }
}
