/** The p5.js numeric helpers that the sketch's control layer relies on,
    stated over exact reals. A call to `Math.random()` is modelled as a draw
    `u` in [0, 1) handed in by the caller. */
module P5Math {

  /** A value `Math.random()` can return. */
  predicate IsUnit(u: real) {
    0.0 <= u < 1.0
  }

  predicate AllUnit(us: seq<real>) {
    forall i :: 0 <= i < |us| ==> IsUnit(us[i])
  }

  /** p5's `lerp(start, stop, amt)`. */
  function Lerp(start: real, stop: real, amt: real): real {
    amt * (stop - start) + start
  }

  /** JavaScript's `min` on integers. */
  function Min(a: int, b: int): int {
    if a < b then a else b
  }

  function Abs(x: int): nat {
    if x < 0 then -x else x
  }

  lemma ScaleBelow(u: real, w: real)
    requires IsUnit(u) && w > 0.0
    ensures 0.0 <= u * w < w
  {
    assert w - u * w == (1.0 - u) * w;
  }

  /** `floor(random(lo, hi))` for a draw `u`: p5 draws `random(lo, hi)` as
      `u * (hi - lo) + lo`, so the floor lands in lo .. hi-1. With lo = 0 it is
      also `Math.floor(Math.random() * hi)`. */
  function FloorRandom(u: real, lo: int, hi: int): (r: int)
    requires IsUnit(u) && lo < hi
    ensures lo <= r < hi
  {
    var w := (hi - lo) as real;
    ScaleBelow(u, w);
    var y := u * w + lo as real;
    assert lo as real <= y < hi as real;
    y.Floor
  }
}
