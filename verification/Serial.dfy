/** Sequence numbers on the circle of 2^32 values, compared as in section 3.2 of RFC 1982. */
module Serial {
  const HALF := 0x8000_0000

  type Seq = x: int | 0 <= x < 0x1_0000_0000

  /** The forward distance from `b` up to `a`: a wrapping subtraction. */
  function AheadOf(a: Seq, b: Seq): Seq {
    (a - b) % 0x1_0000_0000
  }

  predicate NewerThan(a: Seq, b: Seq) {
    a != b && AheadOf(a, b) < HALF
  }

  function Next(a: Seq): Seq {
    (a + 1) % 0x1_0000_0000
  }

  /** The number `k` steps ahead of `a`. */
  function Plus(a: Seq, k: nat): Seq {
    (a + k) % 0x1_0000_0000
  }

  /** On numbers that lie less than half a circle ahead of a common base, the serial
      comparison is the plain comparison of distances, whatever wraps. */
  lemma NewerIsFurther(a: Seq, b: Seq, base: Seq)
    requires AheadOf(a, base) < HALF && AheadOf(b, base) < HALF
    ensures NewerThan(a, b) <==> AheadOf(a, base) > AheadOf(b, base)
  {
    assert AheadOf(a, b) == (AheadOf(a, base) - AheadOf(b, base)) % 0x1_0000_0000;
  }

  /** One step of the head brings every other number one step nearer. */
  lemma StepNearer(a: Seq, h: Seq)
    ensures a != h ==> AheadOf(a, Next(h)) == AheadOf(a, h) - 1
    ensures a == h ==> AheadOf(a, Next(h)) == 0xFFFF_FFFF
  {
  }

  lemma SameNumber(a: Seq, b: Seq)
    ensures AheadOf(a, b) == 0 <==> a == b
  {
  }

  lemma PlusNone(h: Seq)
    ensures Plus(h, 0) == h
  {
  }

  lemma PlusNext(h: Seq, k: nat)
    ensures Plus(Next(h), k) == Plus(h, k + 1)
  {
  }
}
