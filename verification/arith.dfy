/** Facts about real multiplication and division used by the geometry proofs. */
module Arith {

  function Abs(r: real): real
  {
    if r < 0.0 then -r else r
  }

  function Sq(r: real): real
  {
    r * r
  }

  /** A square below r * r, for r >= 0, comes from a number of magnitude below r. */
  lemma SqBelow(a: real, r: real)
    requires r >= 0.0 && Sq(a) < Sq(r)
    ensures Abs(a) < r
  {
    if Abs(a) >= r {
      MulNonneg(Abs(a) - r, Abs(a) + r);
    }
  }

  lemma SqNonneg(r: real)
    ensures Sq(r) >= 0.0
  {
    if r < 0.0 {
      MulNonneg(-r, -r);
    } else {
      MulNonneg(r, r);
    }
  }

  lemma SqPos(r: real)
    requires r != 0.0
    ensures Sq(r) > 0.0
  {
    if r < 0.0 {
      calc {
        Sq(r);
        == (-r) * (-r);
        > { MulPos(-r, -r); } 0.0;
      }
    } else {
      calc {
        Sq(r);
        == r * r;
        > { MulPos(r, r); } 0.0;
      }
    }
  }

  lemma MulNonneg(u: real, v: real)
    requires u >= 0.0 && v >= 0.0
    ensures u * v >= 0.0
  {
  }

  lemma MulPos(u: real, v: real)
    requires u > 0.0 && v > 0.0
    ensures u * v > 0.0
  {
  }

  /** t > 0 and a < m * t imply a / t < m. */
  lemma DivBelow(a: real, m: real, t: real)
    requires t > 0.0 && a < m * t
    ensures a / t < m
  {
  }

  /** t > 0 and m * t < a imply m < a / t. */
  lemma DivAbove(a: real, m: real, t: real)
    requires t > 0.0 && m * t < a
    ensures m < a / t
  {
  }

  /** Between n * t and n * t + t when c / t is between n and n + 1. */
  lemma ScaleBetween(c: real, t: real, q: real, n: real)
    requires t > 0.0 && q * t == c && n <= q < n + 1.0
    ensures n * t <= c < n * t + t
  {
    calc {
      n * t;
    <= { MulNonneg(q - n, t); }
      n * t + (q - n) * t;
    == { SubMul(q, n, t); }
      q * t;
    ==
      c;
    }
    calc {
      c;
    ==
      q * t;
    < { MulPos(n + 1.0 - q, t); }
      q * t + (n + 1.0 - q) * t;
    == { SubMul(n + 1.0, q, t); }
      (n + 1.0) * t;
    == { AddOneMul(n, t); }
      n * t + t;
    }
  }

  lemma SubMul(a: real, b: real, t: real)
    ensures (a - b) * t == a * t - b * t
  {
  }

  lemma AddOneMul(n: real, t: real)
    ensures (n + 1.0) * t == n * t + t
  {
  }

  /** The tile of size t containing c spans [floor(c / t) * t, floor(c / t) * t + t). */
  lemma FloorTile(c: real, t: real)
    requires t > 0.0
    ensures (c / t).Floor as real * t <= c < (c / t).Floor as real * t + t
  {
    var q := c / t;
    ScaleBetween(c, t, q, q.Floor as real);
  }
}
