/** Projectiles: the value records turrets emit, and the projectile object of
    `Projectile.js` with its straight-line motion and the colour cycling of a
    radial projectile's `draw`.

    Directions are kept symbolic: an angle is an optional aim (the `Math.atan2`
    of the vector from one point to another) plus a real multiple of pi, and a
    velocity is a magnitude times the cosine of one angle and the sine of
    another, or an explicit vector. No trigonometric function is evaluated. */
module Projectiles {
  import opened Common

  /** A fill colour: a named CSS colour, or the `hsl(hue, saturation%, light%)` string the aimed turrets build. */
  datatype Colour = Named(name: string) | Hsl(hue: real, saturation: nat, light: nat)

  /** `Fixed` is angle 0; `Toward(fx, fy, tx, ty)` is `Math.atan2(ty - fy, tx - fx)`. */
  datatype Aim = Fixed | Toward(fromX: real, fromY: real, toX: real, toY: real)

  /** The angle `aim + halfTurns * Math.PI`. */
  datatype Angle = Angle(aim: Aim, halfTurns: real)

  /** `Polar(m, a, b)` is the vector `(m * Math.cos(a), m * Math.sin(b))`; `Cartesian` is given outright. */
  datatype Velocity = Polar(magnitude: real, cosOf: Angle, sinOf: Angle) | Cartesian(vx: real, vy: real)

  /** The usual case of a velocity of magnitude `m` in direction `a`. */
  function Along(m: real, a: Angle): (v: Velocity)
    ensures v.Polar? && v.cosOf == v.sinOf == a && v.magnitude == m
  {
    Polar(m, a, a)
  }

  /** One `new RadialProjectile(...)` / `new AimedProjectile(...)` a turret
      pushes: its start point, its velocity before scaling, its colour. */
  datatype Shot = Shot(x: real, y: real, velocity: Velocity, colour: Colour)

  /** The factor every projectile's velocity is multiplied by (Projectile.js:7-8). */
  function SpeedScale(width: real, height: real): real
  {
    (height + width) * 0.0005
  }

  /** The five shades a radial projectile cycles through, by the colour name it
      was made with; only three names have a table. */
  function ColourTable(name: string): (t: Option<seq<string>>)
    ensures t.Some? <==> name == "red" || name == "darkPink" || name == "magenta"
    ensures t.Some? ==> |t.value| == 5
  {
    if name == "red" then
      Some(["hsl(0, 100%, 40%)", "hsl(0, 100%, 50%)", "hsl(0, 100%, 60%)", "hsl(0, 100%, 70%)", "hsl(0, 100%, 80%)"])
    else if name == "darkPink" then
      Some(["hsl(340, 100%, 40%)", "hsl(340, 100%, 50%)", "hsl(340, 100%, 60%)", "hsl(340, 100%, 70%)", "hsl(340, 100%, 80%)"])
    else if name == "magenta" then
      Some(["hsl(320, 100%, 40%)", "hsl(320, 100%, 50%)", "hsl(320, 100%, 60%)", "hsl(320, 100%, 70%)", "hsl(320, 100%, 80%)"])
    else None
  }

  /** The shade `draw` reads: the index, wrapped back to 0 when it has run off the table. */
  function Shown(colourIndex: nat, len: nat): (k: nat)
    requires 0 < len && colourIndex <= len
    ensures k < len
    ensures colourIndex < len ==> k == colourIndex
  {
    if colourIndex == len then 0 else colourIndex
  }

  /** The shade index and frame count after one `RadialProjectile.draw` on a
      table of `len` shades: the shown index steps once if the frame count
      (before it grows) is a multiple of 20, and the frame count grows by one. */
  function DrawStep(colourIndex: nat, frames: nat, len: nat): (r: (nat, nat))
    requires 0 < len && colourIndex <= len
    ensures r.0 <= len && r.1 == frames + 1
    ensures frames % 20 != 0 ==> r.0 == Shown(colourIndex, len)
    ensures frames % 20 == 0 ==> r.0 == Shown(colourIndex, len) + 1
  {
    (Shown(colourIndex, len) + (if frames % 20 == 0 then 1 else 0), frames + 1)
  }

  /** The state after `k` draws of a freshly made radial projectile. */
  function Draws(k: nat, len: nat): (r: (nat, nat))
    requires 0 < len
    ensures r.0 <= len
  {
    if k == 0 then (0, 0)
    else
      var prev := Draws(k - 1, len);
      DrawStep(prev.0, prev.1, len)
  }

  lemma MulAtLeast(k: int, d: int)
    requires 1 <= k && 0 < d
    ensures k * d >= d
  {
    assert k * d == (k - 1) * d + d;
    assert (k - 1) * d >= 0;
  }

  lemma ModUnique(n: int, d: int, q: int, r: int)
    requires 0 < d && n == q * d + r && 0 <= r < d
    ensures n / d == q && n % d == r
  {
    var q', r' := n / d, n % d;
    assert n == q' * d + r';
    assert q * d - q' * d == (q - q') * d;
    if q > q' {
      MulAtLeast(q - q', d);
    } else if q < q' {
      MulAtLeast(q' - q, d);
    }
  }

  lemma ModNext(a: nat, len: nat)
    requires 0 < len
    ensures (a + 1) % len == if a % len + 1 == len then 0 else a % len + 1
  {
    var q, r := a / len, a % len;
    if r + 1 == len {
      ModUnique(a + 1, len, q + 1, 0);
    } else {
      ModUnique(a + 1, len, q, r + 1);
    }
  }

  /** `ceil(k / 20)` grows by one exactly on the frames after a multiple of 20. */
  lemma CeilStep(k: nat)
    requires 0 < k
    ensures (k - 1) % 20 == 0 ==> (k + 19) / 20 == (k - 1 + 19) / 20 + 1
    ensures (k - 1) % 20 != 0 ==> (k + 19) / 20 == (k - 1 + 19) / 20
  {
    var q, r := (k - 1) / 20, (k - 1) % 20;
    if r == 0 {
      ModUnique(k + 19, 20, q + 1, 0);
      ModUnique(k - 1 + 19, 20, q, 19);
    } else {
      ModUnique(k + 19, 20, q + 1, r);
      ModUnique(k - 1 + 19, 20, q + 1, r - 1);
    }
  }

  /** The shade read on the draw at frame `k` (counting from 0) is
      `ceil(k / 20) mod len`: shade 0 on frame 0, then each shade for 20
      consecutive frames, cycling through the table without running off it. */
  lemma {:induction false} DrawsCycle(k: nat, len: nat)
    requires 0 < len
    ensures Draws(k, len).1 == k
    ensures Shown(Draws(k, len).0, len) == ((k + 19) / 20) % len
  {
    if k > 0 {
      DrawsCycle(k - 1, len);
      CeilStep(k);
      if (k - 1) % 20 == 0 {
        ModNext((k - 1 + 19) / 20, len);
      }
    }
  }

  /** One object for `Projectile` and its three subclasses, told apart by the
      named constructor that made it. `colour` is unset for a radial
      projectile; `colours`, `colourIndex` and `frames` are used only by one. */
  class Projectile {
    var x: real
    var y: real
    var velX: real
    var velY: real
    const radius: real
    const colour: Option<Colour>
    const colours: Option<seq<string>>
    var colourIndex: nat
    var frames: nat

    /** The read in `draw` stays in bounds once the reset at its start has run. */
    ghost predicate Valid()
      reads this
    {
      colours.Some? ==> 0 < |colours.value| && colourIndex <= |colours.value|
    }

    /** `new RadialProjectile(canvas, ctx, x, y, velX, velY, name)`. */
    constructor Radial(width: real, height: real, x0: real, y0: real, vx: real, vy: real, name: string)
      ensures Valid()
      ensures x == x0 && y == y0
      ensures velX == vx * SpeedScale(width, height) && velY == vy * SpeedScale(width, height)
      ensures radius == height * 0.003
      ensures colour == None && colours == ColourTable(name)
      ensures colourIndex == 0 && frames == 0
    {
      x, y := x0, y0;
      velX := vx * ((height + width) * 0.0005);
      velY := vy * ((height + width) * 0.0005);
      radius := height * 0.003;
      colour := None;
      colours := ColourTable(name);
      colourIndex, frames := 0, 0;
    }

    /** `new AimedProjectile(canvas, ctx, x, y, velX, velY, colour)`. */
    constructor Aimed(width: real, height: real, x0: real, y0: real, vx: real, vy: real, c: Colour)
      ensures Valid()
      ensures x == x0 && y == y0
      ensures velX == vx * SpeedScale(width, height) && velY == vy * SpeedScale(width, height)
      ensures radius == height * 0.003
      ensures colour == Some(c) && colours == None
    {
      x, y := x0, y0;
      velX := vx * ((height + width) * 0.0005);
      velY := vy * ((height + width) * 0.0005);
      radius := height * 0.003;
      colour := Some(c);
      colours := None;
      colourIndex, frames := 0, 0;
    }

    /** `new PlayerProjectile(canvas, ctx, x, y, velX, velY)`: always magenta. */
    constructor PlayerShot(width: real, height: real, x0: real, y0: real, vx: real, vy: real)
      ensures Valid()
      ensures x == x0 && y == y0
      ensures velX == vx * SpeedScale(width, height) && velY == vy * SpeedScale(width, height)
      ensures radius == height * 0.002
      ensures colour == Some(Named("magenta")) && colours == None
    {
      x, y := x0, y0;
      velX := vx * ((height + width) * 0.0005);
      velY := vy * ((height + width) * 0.0005);
      radius := height * 0.002;
      colour := Some(Named("magenta"));
      colours := None;
      colourIndex, frames := 0, 0;
    }

    /** One frame of straight-line motion; the velocity never changes. */
    method Update()
      modifies this`x, this`y
      ensures x == old(x) + velX && y == old(y) + velY
      ensures velX == old(velX) && velY == old(velY)
    {
      x := x + velX;
      y := y + velY;
    }

    /** `RadialProjectile.draw`: wraps the shade index back to 0 when it has run
        off the table, returns the shade drawn, and steps the index on every
        20th frame. Only a projectile made with a named table can be drawn. */
    method Draw() returns (fill: string)
      requires Valid()
      requires colours.Some?
      modifies this`colourIndex, this`frames
      ensures Valid()
      ensures fill == colours.value[Shown(old(colourIndex), |colours.value|)]
      ensures (colourIndex, frames) == DrawStep(old(colourIndex), old(frames), |colours.value|)
    {
      var shades := colours.value;
      if colourIndex == |shades| as nat {
        colourIndex := 0;
      }
      fill := shades[colourIndex];
      if frames % 20 == 0 {
        colourIndex := colourIndex + 1;
      }
      frames := frames + 1;
    }
  }
}
