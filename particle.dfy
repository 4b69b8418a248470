/** A spark of an explosion (`Particle.js`): it drifts at a constant velocity
    while its opacity fades by 3% and its radius shrinks by 2% every frame. */
module Particles {
  import opened Common

  /** `b` multiplied by itself `k` times. */
  function Pow(b: real, k: nat): (p: real)
    ensures 0.0 < b ==> 0.0 < p
    ensures 0.0 <= b <= 1.0 ==> 0.0 <= p <= 1.0
  {
    if k == 0 then 1.0
    else
      var q := Pow(b, k - 1);
      PowStep(b, q);
      b * q
  }

  lemma PowStep(b: real, q: real)
    ensures 0.0 < b && 0.0 < q ==> 0.0 < b * q
    ensures 0.0 <= b <= 1.0 && 0.0 <= q <= 1.0 ==> 0.0 <= b * q <= 1.0
  {
    if 0.0 <= b <= 1.0 && 0.0 <= q <= 1.0 {
      MulNonneg(b, q);
      assert b * q <= 1.0 * q;
    }
    if 0.0 < b && 0.0 < q {
      MulNonneg(b, q);
    }
  }

  /** One more factor strictly between 0 and 1 makes a power smaller. */
  lemma PowNext(b: real, k: nat)
    requires 0.0 < b < 1.0
    ensures Pow(b, k + 1) < Pow(b, k)
  {
    ShrinkBy(b, Pow(b, k), Pow(b, k + 1));
  }

  lemma ShrinkBy(b: real, q: real, p: real)
    requires 0.0 < b < 1.0 && 0.0 < q && p == b * q
    ensures p < q
  {
    ScaleBelow(b, q);
  }

  /** A factor strictly between 0 and 1 makes the powers strictly decrease:
      after more frames a faded quantity is always smaller. */
  lemma {:induction false} PowDecreasing(b: real, k: nat, m: nat)
    requires 0.0 < b < 1.0 && k < m
    ensures Pow(b, m) < Pow(b, k)
  {
    PowNext(b, m - 1);
    if k < m - 1 {
      PowDecreasing(b, k, m - 1);
    }
  }

  /** One more factor `b` strictly between 0 and 1 on `c * b^k`, with `c`
      positive: the result is `c * b^(k+1)`, still positive and smaller. */
  lemma ShrinkStep(c: real, b: real, k: nat)
    requires 0.0 < c && 0.0 < b < 1.0
    ensures 0.0 < c * Pow(b, k) * b < c * Pow(b, k)
    ensures c * Pow(b, k) * b == c * Pow(b, k + 1)
  {
    var q := Pow(b, k);
    var m := c * q;
    MulNonneg(c, q);
    ShrinkBy(b, m, b * m);
    MulNonneg(b, m);
    assert Pow(b, k + 1) == b * q;
    assert c * (b * q) == b * m;
  }

  /** One frame of fading and shrinking, on a particle `k` frames old that
      started with the radius `r0`: both quantities stay positive and
      strictly decrease, and after the frame they are the `k + 1` powers. */
  lemma FadeStep(r0: real, k: nat, radius: real, opacity: real)
    requires 0.0 < r0 && radius == r0 * Pow(0.98, k) && opacity == Pow(0.97, k)
    ensures 0.0 < radius * 0.98 < radius && radius * 0.98 == r0 * Pow(0.98, k + 1)
    ensures 0.0 < opacity * 0.97 < opacity && opacity * 0.97 == Pow(0.97, k + 1)
  {
    ShrinkStep(r0, 0.98, k);
    ShrinkStep(1.0, 0.97, k);
  }

  /** Where a coordinate that starts at `start` is after `k` frames of
      adding `vel`: `start + k * vel`. */
  function Moved(start: real, vel: real, k: nat): real
  {
    if k == 0 then start else Moved(start, vel, k - 1) + vel
  }

  /** `(Math.random() - 0.5) * Math.random() * height * 0.002`: one velocity
      component of a new particle, for the draws `r` and `rScale`. */
  function Drift(height: real, r: real, rScale: real): real
  {
    Spread(r - 0.5, rScale, height)
  }

  /** `c * s * height * 0.002`: the drift for the centred draw `c`. */
  function Spread(c: real, s: real, height: real): real
  {
    c * s * height * 0.002
  }

  /** Whatever the two draws, a drift component stays strictly within a
      thousandth of the canvas height either way. */
  lemma DriftBounds(height: real, r: real, rScale: real)
    requires 0.0 < height && 0.0 <= r < 1.0 && 0.0 <= rScale < 1.0
    ensures -(height * 0.001) < Drift(height, r, rScale) < height * 0.001
  {
    if r < 0.5 {
      SpreadBelow(0.5 - r, rScale, height);
      SpreadMirror(0.5 - r, rScale, height);
    } else {
      SpreadBelow(r - 0.5, rScale, height);
      SpreadMirror(r - 0.5, rScale, height);
    }
  }

  /** Turning the centred draw round turns the drift round. */
  lemma SpreadMirror(c: real, s: real, height: real)
    ensures Spread(-c, s, height) == -Spread(c, s, height)
  {
  }

  /** For `0 <= c <= 0.5` and a draw `s`, the drift is not negative and stays
      below a thousandth of a positive `height`. */
  lemma SpreadBelow(c: real, s: real, h: real)
    requires 0.0 <= c <= 0.5 && 0.0 <= s < 1.0 && 0.0 < h
    ensures 0.0 <= Spread(c, s, h) < h * 0.001
  {
    ScaleBelow(s, c);
    var p := c * s;
    MulNonneg(p, h);
    if c == 0.0 {
      assert p == 0.0;
    } else {
      assert p < 0.5;
      MulNonneg(0.5 - p, h);
      assert (0.5 - p) * h == 0.5 * h - p * h;
    }
  }

  /** `height * 0.002 + Math.random() * height * 0.002`: between two and four
      thousandths of the canvas height. */
  function SparkRadius(height: real, r: real): (v: real)
    requires 0.0 < height && 0.0 <= r < 1.0
    ensures height * 0.002 <= v < height * 0.004
  {
    assert height * 0.002 + r * height * 0.002 == ScaledRange(height, r, 0.002, 0.002);
    height * 0.002 + r * height * 0.002
  }

  class Particle {
    var x: real
    var y: real
    const velX: real
    const velY: real
    var radius: real
    var opacity: real
    const colour: string
    /** How many frames the particle has been updated, and where and how large it started. */
    ghost var age: nat
    ghost const x0: real
    ghost const y0: real
    ghost const radius0: real

    /** After `age` frames the particle has moved `age` velocities from its
        start, its opacity is 0.97^age and its radius is the starting radius
        times 0.98^age. */
    ghost predicate Valid()
      reads this
    {
      && 0.0 < radius0
      && x == Moved(x0, velX, age)
      && y == Moved(y0, velY, age)
      && opacity == Pow(0.97, age)
      && radius == radius0 * Pow(0.98, age)
    }

    /** `new Particle(canvas, ctx, x, y, colour)` with the five draws of
        `Math.random()` in order: two for each velocity component, one for
        the radius. */
    constructor (height: real, x1: real, y1: real, colour1: string,
                 rx: real, rxScale: real, ry: real, ryScale: real, rRadius: real)
      requires 0.0 < height
      requires 0.0 <= rx < 1.0 && 0.0 <= rxScale < 1.0 && 0.0 <= ry < 1.0 && 0.0 <= ryScale < 1.0
      requires 0.0 <= rRadius < 1.0
      ensures Valid() && age == 0
      ensures x == x1 && y == y1 && colour == colour1
      ensures opacity == 1.0
      ensures velX == Drift(height, rx, rxScale) && velY == Drift(height, ry, ryScale)
      ensures -(height * 0.001) < velX < height * 0.001 && -(height * 0.001) < velY < height * 0.001
      ensures radius == SparkRadius(height, rRadius)
      ensures height * 0.002 <= radius < height * 0.004
    {
      x, y := x1, y1;
      x0, y0 := x1, y1;
      DriftBounds(height, rx, rxScale);
      DriftBounds(height, ry, ryScale);
      velX := Drift(height, rx, rxScale);
      velY := Drift(height, ry, ryScale);
      radius := SparkRadius(height, rRadius);
      radius0 := radius;
      colour := colour1;
      opacity := 1.0;
      age := 0;
    }

    /** One frame: move by the velocity, fade by 3%, and shrink by 2% while
        the radius is positive, which it always is. */
    method Update()
      requires Valid()
      modifies this`x, this`y, this`opacity, this`radius, this`age
      ensures Valid() && age == old(age) + 1
      ensures x == old(x) + velX && y == old(y) + velY
      ensures opacity == old(opacity) * 0.97
      ensures radius == if old(radius) > 0.0 then old(radius) * 0.98 else old(radius)
      ensures 0.0 < opacity < old(opacity)
      ensures 0.0 < radius < old(radius)
    {
      FadeStep(radius0, age, radius, opacity);
      x := x + velX;
      y := y + velY;
      opacity := opacity * 0.97;
      if radius > 0.0 {
        radius := radius * 0.98;
      }
      age := age + 1;
    }
  }
}
