/** The hash-style pseudo-random noise used both as a mask and as a jitter source. */
module NoiseMask {
  import opened HostMath

  /**
    Fractional part: `n - floor(n)`. The result is the unique value in
    [0, 1) that differs from `n` by an integer.
   */
  function Frac(n: real): (r: real)
    ensures 0.0 <= r < 1.0
    ensures (n - r).Floor as real == n - r
  {
    n - n.Floor as real
  }

  /**
    `noise(x, y)`: the fractional part of a scaled sine. Whatever the
    sine returns, the value lies in [0, 1).
   */
  function Noise(lib: Library, x: real, y: real): (r: real)
    ensures 0.0 <= r < 1.0
  {
    Frac(lib.sin(x * 12.9898 + y * 78.233) * 43758.5453)
  }
}
