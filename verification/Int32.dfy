/** Go's `int32` and the conversion `int32(x)`, which keeps the low 32 bits. */
module Int32 {

  const INT32_MAX := 0x7FFF_FFFF

  type int32 = x: int | -0x8000_0000 <= x <= 0x7FFF_FFFF

  /** The only `int32` congruent to `x` modulo 2^32. */
  function Wrap(x: int): (r: int32)
    ensures (x - r) % 0x1_0000_0000 == 0
    ensures -0x8000_0000 <= x <= INT32_MAX ==> r == x
  {
    (x + 0x8000_0000) % 0x1_0000_0000 - 0x8000_0000
  }

  /** An `int32` counter that is wrapped at every step is the wrapped counter. */
  lemma {:induction false} WrapAdd(x: int, y: int)
    ensures Wrap(Wrap(x) + y) == Wrap(x + y)
  {
    var q := (x + 0x8000_0000) / 0x1_0000_0000;
    assert x == Wrap(x) + q * 0x1_0000_0000;
    WholeTurns(Wrap(x) + y, q);
  }

  lemma {:induction false} WholeTurns(x: int, q: int)
    ensures Wrap(x + q * 0x1_0000_0000) == Wrap(x)
  {
    var z := x + 0x8000_0000;
    var d := z / 0x1_0000_0000;
    assert z + q * 0x1_0000_0000 == (d + q) * 0x1_0000_0000 + z % 0x1_0000_0000;
    assert (z + q * 0x1_0000_0000) / 0x1_0000_0000 == d + q;
  }
}
