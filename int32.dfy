/// The 32-bit signed integers the renderer stores in its draw descriptors.
module Int32 {
  const MIN_I32: int := -0x8000_0000
  const MAX_I32: int := 0x7fff_ffff
  const TWO_POW_32: int := 0x1_0000_0000

  predicate InI32(x: int) { MIN_I32 <= x <= MAX_I32 }

  /** Rust's `n as i32` for a `usize` value: keep the low 32 bits and read them in two's complement. */
  function AsI32(n: nat): (r: int)
    ensures InI32(r)
    ensures n <= MAX_I32 ==> r == n
    ensures (n - r) % TWO_POW_32 == 0
  {
    if n <= MAX_I32 then n
    else
      var low := n % TWO_POW_32;
      if low <= MAX_I32 then low else low - TWO_POW_32
  }

  /** The first vertex count that no longer fits: its cast wraps to the most negative i32. */
  lemma AsI32WrapsAtBound()
    ensures AsI32(MAX_I32 + 1) == MIN_I32
  {
  }
}
