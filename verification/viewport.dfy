/**
  The follow camera of the later revisions: the top-left corner of the visible part
  of the world, kept inside the map.
*/
module Viewport {
  import opened Arith

  /** lerp(a, b, t): move from a toward b by the fraction t. */
  function Lerp(a: real, b: real, t: real): (r: real)
    ensures t == 0.0 ==> r == a
    ensures t == 1.0 ==> r == b
    ensures 0.0 <= t <= 1.0 && a <= b ==> a <= r <= b
    ensures 0.0 <= t <= 1.0 && b <= a ==> b <= r <= a
  {
    if 0.0 <= t <= 1.0 then
      MulNonneg(if a <= b then b - a else a - b, t);
      MulNonneg(if a <= b then b - a else a - b, 1.0 - t);
      (b - a) * t + a
    else (b - a) * t + a
  }

  /** A camera coordinate after the bounds checks: first raised to 0, then lowered
      to `hi` (the map extent minus the screen extent). */
  function ClampView(v: real, hi: real): (r: real)
    ensures r <= hi
    ensures hi >= 0.0 ==> 0.0 <= r
    ensures 0.0 <= v <= hi ==> r == v
    ensures v < 0.0 && hi >= 0.0 ==> r == 0.0
    ensures v > hi ==> r == hi
  {
    var raised := if v < 0.0 then 0.0 else v;
    if raised > hi then hi else raised
  }
}
