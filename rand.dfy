/** Draws of `Math.random()` are inputs `u` with 0 <= u < 1. */
module Rand {

  /** `Math.floor(u * n)`: a whole number picked below `n`. */
  function ScaledFloor(u: real, n: nat): (k: nat)
    requires 0.0 <= u < 1.0
    ensures n > 0 ==> k < n
    ensures n == 0 ==> k == 0
    ensures u == 0.0 ==> k == 0
  {
    var x := u * n as real;
    assert 0.0 <= x by {
      assert 0.0 <= n as real;
    }
    assert n > 0 ==> x < n as real by {
      if n > 0 {
        assert u * n as real < 1.0 * n as real;
      }
    }
    x.Floor
  }
}
