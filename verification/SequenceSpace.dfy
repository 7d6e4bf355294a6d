/**
 * Wrapping 32-bit sequence numbers. A sequence number stands for an unbounded position modulo
 * 2^32; the lemmas say when the wrapping tests agree with the order of the positions.
 */
module SequenceSpace {
  import opened Numbers

  /** The sequence number of an unbounded position. */
  function Wrap(position: int): u32 {
    position % 0x1_0000_0000
  }

  /** `wrapping_add`. */
  function Add(a: u32, n: int): u32 {
    (a + n) % 0x1_0000_0000
  }

  /** `wrapping_sub`. */
  function Sub(a: u32, b: u32): u32 {
    if a >= b then a - b else a - b + 0x1_0000_0000
  }

  /** The difference, read as a signed 32-bit number, is negative. */
  predicate Before(left: u32, right: u32) {
    Sub(left, right) >= 0x8000_0000
  }

  predicate After(left: u32, right: u32) {
    Before(right, left)
  }

  predicate BeforeOrEqual(left: u32, right: u32) {
    left == right || Before(left, right)
  }

  predicate InClosedInterval(value: u32, start: u32, end: u32) {
    !Before(value, start) && !After(value, end)
  }

  function Distance(start: u32, end: u32): nat {
    Sub(end, start)
  }

  /** Signed offset of `s` from `from`, in [-2^31, 2^31). */
  function Off(from: u32, s: u32): int {
    var d := Sub(s, from);
    if d >= 0x8000_0000 then d - 0x1_0000_0000 else d
  }

  /** Section 3.4 of RFC 9293: below 2^31 apart, the wrapping tests are the integer tests. */
  lemma WrapOrder(p: int, q: int)
    requires -0x8000_0000 < p - q < 0x8000_0000
    ensures Before(Wrap(p), Wrap(q)) <==> p < q
    ensures After(Wrap(p), Wrap(q)) <==> p > q
    ensures BeforeOrEqual(Wrap(p), Wrap(q)) <==> p <= q
    ensures Wrap(p) == Wrap(q) <==> p == q
    ensures Off(Wrap(q), Wrap(p)) == p - q
    ensures p <= q ==> Distance(Wrap(p), Wrap(q)) == q - p
  {
    WrapDifference(p, q);
    WrapDifference(q, p);
  }

  lemma WrapDifference(p: int, q: int)
    ensures Sub(Wrap(p), Wrap(q)) == Wrap(p - q)
  {
    var a, b := p / 0x1_0000_0000, q / 0x1_0000_0000;
    assert p - q == (Wrap(p) - Wrap(q)) + (a - b) * 0x1_0000_0000;
  }

  lemma WrapAdd(p: int, n: int)
    ensures Add(Wrap(p), n) == Wrap(p + n)
  {
    assert p + n == (Wrap(p) + n) + (p / 0x1_0000_0000) * 0x1_0000_0000;
  }

  /** Membership of a closed interval of positions, for an interval shorter than 2^31. */
  lemma WrapInterval(value: u32, p: int, q: int)
    requires 0 <= q - p < 0x8000_0000
    ensures InClosedInterval(value, Wrap(p), Wrap(q))
       <==> exists r :: p <= r <= q && value == Wrap(r)
  {
    var r := p + Off(Wrap(p), value);
    OffPosition(p, value);
    assert value == Wrap(r);
    if p <= r {
      WrapOrder(r, p);
      if r - q < 0x8000_0000 { WrapOrder(r, q); }
    }
    forall x | p <= x <= q && value == Wrap(x)
      ensures InClosedInterval(value, Wrap(p), Wrap(q))
    {
      WrapOrder(x, p);
      WrapOrder(x, q);
    }
  }

  /** Every sequence number has exactly one position within 2^31 of a given one. */
  lemma OffPosition(p: int, s: u32)
    ensures Wrap(p + Off(Wrap(p), s)) == s
    ensures -0x8000_0000 <= Off(Wrap(p), s) < 0x8000_0000
  {
    var k := p / 0x1_0000_0000;
    assert p == Wrap(p) + k * 0x1_0000_0000;
  }

  /** The tests of `s` against `from`, read off the signed offset. */
  lemma OffOrder(from: u32, s: u32)
    ensures -0x8000_0000 <= Off(from, s) < 0x8000_0000
    ensures Before(s, from) <==> Off(from, s) < 0
    ensures s == from <==> Off(from, s) == 0
    ensures BeforeOrEqual(s, from) <==> Off(from, s) <= 0
    ensures Off(from, s) >= 0 ==> Distance(from, s) == Off(from, s)
    ensures Off(from, s) > 0 <==> After(s, from) && !Before(s, from)
    ensures -0x8000_0000 < Off(from, s) <= 0 ==> Distance(s, from) == -Off(from, s)
  {
  }

  lemma OffAdd(from: u32, s: u32, n: int)
    requires -0x8000_0000 <= Off(from, s) + n < 0x8000_0000
    ensures Off(from, Add(s, n)) == Off(from, s) + n
  {
  }

  lemma OffShift(from: u32, s: u32, n: int)
    requires -0x8000_0000 <= Off(from, s) - n < 0x8000_0000
    ensures Off(Add(from, n), s) == Off(from, s) - n
  {
  }

  lemma AddAdd(s: u32, m: int, n: int)
    ensures Add(Add(s, m), n) == Add(s, m + n)
    ensures Add(s, 0) == s
  {
  }
}
