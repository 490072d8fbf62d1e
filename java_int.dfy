/**
 * Java's 32-bit `int`: its range, the wrap-around of its arithmetic, and
 * `String.hashCode`, which the share's `hashCode` delegates to.
 */
module JavaInt {
  const INT_MIN: int := -0x8000_0000
  const INT_MAX: int := 0x7fff_ffff
  const MODULUS: int := 0x1_0000_0000

  predicate InRange(x: int) {
    INT_MIN <= x <= INT_MAX
  }

  /** The `int` that Java's arithmetic keeps of the exact result `x`. */
  function Wrap(x: int): (r: int)
    ensures InRange(r)
    ensures InRange(x) ==> r == x
    ensures (x - r) % MODULUS == 0
  {
    (x - INT_MIN) % MODULUS + INT_MIN
  }

  /**
   * `String.hashCode`: h = 31 * h + c over the characters, in `int`
   * arithmetic, starting from 0.
   */
  function StringHashCode(s: string): (h: int)
    ensures InRange(h)
    decreases |s|
  {
    if s == [] then 0 else Wrap(31 * StringHashCode(s[..|s| - 1]) + s[|s| - 1] as int)
  }

  /** A value the JDK gives for a symbol of the seeded market. */
  lemma StringHashCodeOfCdr()
    ensures StringHashCode("CDR") == 66577
  {
    assert "CDR"[..2] == "CD";
    assert "CD"[..1] == "C";
    assert "C"[..0] == "";
  }
}
