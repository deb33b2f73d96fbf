/**
 * Byte positions and spans in the source text. These come from the
 * `source` crate, which is not part of this model; only what the parser
 * utilities use of them is given here.
 */
module Pos {

  /** `RawIndex`, a 32-bit unsigned byte offset. */
  newtype RawIndex = x: int | 0 <= x < 0x1_0000_0000

  datatype BytePos = BytePos(offset: RawIndex)

  /** A byte range `lo .. hi` of the source text. */
  datatype Span = Span(lo: BytePos, hi: BytePos)

  function Min(a: BytePos, b: BytePos): BytePos {
    if a.offset <= b.offset then a else b
  }

  function Max(a: BytePos, b: BytePos): BytePos {
    if a.offset <= b.offset then b else a
  }

  /** `outer` starts no later and ends no earlier than `inner`. */
  predicate Covers(outer: Span, inner: Span) {
    outer.lo.offset <= inner.lo.offset && inner.hi.offset <= outer.hi.offset
  }

  /** The smallest span covering both spans: each of its ends is an end of one of them. */
  function SpanTo(a: Span, b: Span): (r: Span)
    ensures Covers(r, a) && Covers(r, b)
    ensures (r.lo == a.lo || r.lo == b.lo) && (r.hi == a.hi || r.hi == b.hi)
  {
    Span(Min(a.lo, b.lo), Max(a.hi, b.hi))
  }
}
