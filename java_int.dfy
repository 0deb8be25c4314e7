/**
 * Java's 32-bit two's-complement `int`, written out on unbounded integers.
 * `customerCount++` in Customer wraps from 2^31 - 1 to -2^31.
 */
module JavaInt {
  const TWO_31: int := 0x8000_0000
  const TWO_32: int := 0x1_0000_0000

  predicate InRange(x: int) {
    -TWO_31 <= x < TWO_31
  }

  /** The `int` value that the mathematical integer `n` denotes after wrap-around. */
  function Wrap(n: int): (r: int)
    ensures InRange(r)
  {
    (n + TWO_31) % TWO_32 - TWO_31
  }

  /** `x++` on a Java `int`. */
  function Increment(x: int): (r: int)
    requires InRange(x)
    ensures InRange(r)
  {
    if x == TWO_31 - 1 then -TWO_31 else x + 1
  }

  /** The remainder modulo 2^32 is the unique one within range. */
  lemma ModUnique(x: int, q: int, r: int)
    requires 0 <= r < TWO_32 && x == q * TWO_32 + r
    ensures x % TWO_32 == r && x / TWO_32 == q
  {
  }

  /** Wrapping is the identity on values that fit. */
  lemma WrapIdentity(n: int)
    requires InRange(n)
    ensures Wrap(n) == n
  {
    ModUnique(n + TWO_31, 0, n + TWO_31);
  }

  /** Incrementing the wrapped value of `n` gives the wrapped value of `n + 1`. */
  lemma IncrementWrap(n: int)
    ensures Increment(Wrap(n)) == Wrap(n + 1)
  {
    var q, r := (n + TWO_31) / TWO_32, (n + TWO_31) % TWO_32;
    if r == TWO_32 - 1 {
      ModUnique(n + 1 + TWO_31, q + 1, 0);
    } else {
      ModUnique(n + 1 + TWO_31, q, r + 1);
    }
  }

  /** Two counts fewer than 2^32 apart wrap to different values. */
  lemma WrapInjective(i: int, j: int)
    requires i < j < i + TWO_32
    ensures Wrap(i) != Wrap(j)
  {
  }
}
