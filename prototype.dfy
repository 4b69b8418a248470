/** The first prototype of the game (`index.js`): red turrets that drift down
    the screen and, every five seconds, each fire a ring of white projectiles.
    The module-level `turrets` and `projectiles` arrays and `oldTimeStamp`
    are the fields of a `Game`. `Math.sin` and `Math.cos` are parameters,
    applied to angles counted in half-turns (multiples of pi). */
module Prototype {
  import opened Common

  /** `const turretNumber = 5`: how many turrets `init` adds. */
  const TurretNumber: nat := 5

  /** `Math.floor(Math.random() * 20) + 1`: how many projectiles one `fire` makes. */
  function FireCount(r: real): (n: nat)
    requires 0.0 <= r < 1.0
    ensures 1 <= n <= 20
  {
    PickIndex(r, 20) + 1
  }

  /** Every count from 1 to 20 is drawn for some `r`: the source comment's
      "10 to 20" does not hold for the code, which fires as few as one. */
  lemma FireCountOnto(k: nat)
    requires 1 <= k <= 20
    ensures FireCount((k - 1) as real / 20.0) == k
  {
    var r := (k - 1) as real / 20.0;
    assert r * 20 as real == (k - 1) as real;
    FloorOfWhole(k - 1);
  }

  lemma FloorOfWhole(m: int)
    ensures (m as real).Floor == m
  {
  }

  /** `2 * Math.PI / numProjectiles * i`, in half-turns: projectile `i` of a
      ring of `n`. */
  function FireAngle(n: nat, i: nat): real
    requires 0 < n
  {
    2.0 / n as real * i as real
  }

  /** A ring is evenly spread over one full turn: consecutive projectiles are
      `2 / n` half-turns apart, the first flies at angle 0 and the `n`-th
      angle would close the circle. */
  lemma FireAngleSpacing(n: nat, i: nat)
    requires 0 < n
    ensures FireAngle(n, i + 1) - FireAngle(n, i) == 2.0 / n as real
    ensures FireAngle(n, 0) == 0.0 && FireAngle(n, n) == 2.0
    ensures i < n ==> 0.0 <= FireAngle(n, i) < 2.0
  {
    var step := 2.0 / n as real;
    assert step * n as real == 2.0;
    assert step * (i + 1) as real == step * i as real + step;
    if i < n {
      assert 0.0 < step;
      assert (i as real) < n as real;
      assert step * i as real < step * n as real;
    }
  }

  /** A velocity component `v` scaled by a thousandth of the canvas's width
      plus height. */
  function LaunchSpeed(v: real, width: real, height: real): real
  {
    v * (height + width) * 0.001
  }

  /** The prototype's projectile: a position and a velocity scaled by the
      canvas size. */
  class Projectile {
    var x: real
    var y: real
    var velX: real
    var velY: real
    var radius: real

    /** `new Projectile(x, y, velX, velY)`: both velocity components are
        multiplied by a thousandth of width plus height. */
    constructor (width: real, height: real, x0: real, y0: real, vx: real, vy: real)
      ensures x == x0 && y == y0
      ensures velX == LaunchSpeed(vx, width, height) && velY == LaunchSpeed(vy, width, height)
      ensures radius == height * 0.005
    {
      x, y := x0, y0;
      velX := vx * (height + width) * 0.001;
      velY := vy * (height + width) * 0.001;
      radius := height * 0.005;
    }

    /** The change one `update` makes: a move by the velocity, which does
        not change. */
    twostate predicate Flew()
      reads this
    {
      && x == old(x) + old(velX) && y == old(y) + old(velY)
      && velX == old(velX) && velY == old(velY)
    }

    /** One frame: move by the velocity, which does not change. */
    method Update()
      modifies this`x, this`y
      ensures x == old(x) + velX && y == old(y) + velY
      ensures Flew()
    {
      x := x + velX;
      y := y + velY;
    }
  }

  /** `canvas.height * (Math.random() * 0.001 + 0.001)`: a turret's speed. */
  function TurretSpeed(height: real, r: real): (v: real)
    requires 0.0 < height && 0.0 <= r < 1.0
    ensures height * 0.001 <= v < height * 0.002
  {
    ScaledRange(height, r, 0.001, 0.001)
  }

  /** The prototype's turret. The canvas size it reads is fixed for its
      lifetime: a resize empties the turret list before the size changes. */
  class Turret {
    const width: real
    const height: real
    var radius: real
    var x: real
    var y: real
    var velX: real
    var velY: real

    /** Between frames a turret is on the canvas vertically, with a speed
        from its range. */
    ghost predicate Valid()
      reads this
    {
      && 0.0 < height && 0.0 <= width
      && radius == height * 0.005
      && 0.0 <= y <= height
      && height * 0.001 <= velY < height * 0.002
    }

    /** `new Turret()` with the draws `rx` for the position and `rv` for the
        speed: at the top edge, its whole width on the canvas. */
    constructor (width0: real, height0: real, rx: real, rv: real)
      requires 0.0 < height0 && 0.0 <= width0
      requires 0.0 <= rx < 1.0 && 0.0 <= rv < 1.0
      ensures Valid()
      ensures width == width0 && height == height0
      ensures radius == height0 * 0.005
      ensures x == radius + rx * (width0 - 2.0 * radius)
      ensures width0 > 2.0 * radius ==> radius <= x < width0 - radius
      ensures y == 0.0 && velX == 0.0
      ensures velY == TurretSpeed(height0, rv)
    {
      width, height := width0, height0;
      var r := height0 * 0.005;
      var span := width0 - 2.0 * r;
      if span > 0.0 {
        ScaleBelow(rx, span);
      }
      radius := r;
      x := r + rx * span;
      y := 0.0;
      velX := 0.0;
      velY := TurretSpeed(height0, rv);
    }

    /** The change one `update` with the draws `rx` and `rv` makes: a fall by
        `velY`, or, past the bottom edge, a new start at the top with a new
        position and speed. */
    twostate predicate Stepped(rx: real, rv: real)
      requires 0.0 < height && 0.0 <= width && 0.0 <= rx < 1.0 && 0.0 <= rv < 1.0
      reads this
    {
      && (old(y) + old(velY) > height ==> x == Portion(rx, width) && y == 0.0 && velY == TurretSpeed(height, rv))
      && (old(y) + old(velY) <= height ==> x == old(x) && y == old(y) + old(velY) && velY == old(velY))
    }

    /** One frame: fall by `velY`; below the bottom edge, start again at the
        top with a new position `rx` and a new speed `rv`. A turret is never
        left below the bottom edge. */
    method Update(rx: real, rv: real)
      requires Valid()
      requires 0.0 <= rx < 1.0 && 0.0 <= rv < 1.0
      modifies this`x, this`y, this`velY
      ensures Valid()
      ensures Stepped(rx, rv)
    {
      y := y + velY;
      if y > height {
        x := Portion(rx, width);
        y := 0.0;
        velY := TurretSpeed(height, rv);
      }
    }

    /** Projectile `p` is number `j` of a ring of `n` fired by this turret:
        it flies in the direction `(sin(FireAngle(n, j)), cos(FireAngle(n, j)))`
        and it is at the turret's position, or, once it has `flown` one
        frame, one velocity step beyond it. */
    ghost predicate Launched(p: Projectile, n: nat, j: nat, sin: real -> real, cos: real -> real, flown: bool)
      requires 0 < n
      reads this, p
    {
      && (!flown ==> p.x == x && p.y == y)
      && (flown ==> p.x == x + p.velX && p.y == y + p.velY)
      && p.velX == LaunchSpeed(sin(FireAngle(n, j)), width, height)
      && p.velY == LaunchSpeed(cos(FireAngle(n, j)), width, height)
    }

    /** `ps` is a whole ring of this turret, in order: projectile `j` is
        number `j` of a ring of `n`, each of them `flown` one frame or none. */
    ghost predicate Ring(ps: seq<Projectile>, n: nat, sin: real -> real, cos: real -> real, flown: bool)
      requires 0 < n
      reads this, set p | p in ps
    {
      && |ps| == n
      && forall j | 0 <= j < |ps| :: Launched(ps[j], n, j, sin, cos, flown)
    }

    /** `fire()`: a ring of `FireCount(r)` new projectiles, appended after the
        projectiles already in flight, which are kept. */
    method Fire(r: real, sin: real -> real, cos: real -> real, shots: SharedList<Projectile>)
      requires 0.0 <= r < 1.0
      modifies shots
      ensures |old(shots.items)| <= |shots.items| && shots.items[..|old(shots.items)|] == old(shots.items)
      ensures forall j | |old(shots.items)| <= j < |shots.items| :: fresh(shots.items[j])
      ensures Distinct(old(shots.items)) ==> Distinct(shots.items)
      ensures Ring(shots.items[|old(shots.items)|..], FireCount(r), sin, cos, false)
    {
      var numProjectiles := PickIndex(r, 20) + 1;
      ghost var before := shots.items;
      ghost var made: seq<Projectile> := [];
      for i := 0 to numProjectiles
        invariant shots.items == before + made
        invariant |made| == i
        invariant forall j | 0 <= j < i :: fresh(made[j])
        invariant Distinct(before) ==> Distinct(shots.items)
        invariant forall j | 0 <= j < i :: Launched(made[j], numProjectiles, j, sin, cos, false)
      {
        var slice := 2.0 / numProjectiles as real;
        var angle := slice * i as real;
        assert angle == FireAngle(numProjectiles, i);
        var p := new Projectile(width, height, x, y, sin(angle), cos(angle));
        assert Launched(p, numProjectiles, i, sin, cos, false);
        DistinctPush(shots.items, p);
        shots.Push(p);
        made := made + [p];
      }
      assert shots.items[|before|..] == made;
      forall j | |before| <= j < |shots.items|
        ensures fresh(shots.items[j])
      {
        assert shots.items[j] == made[j - |before|];
      }
    }
  }

  /** No object appears twice in `s`. */
  ghost predicate Distinct<T>(s: seq<T>)
  {
    forall i, j | 0 <= i < j < |s| :: s[i] != s[j]
  }

  /** Appending an object not yet in `s` keeps it free of repeats. */
  lemma DistinctPush<T>(s: seq<T>, x: T)
    requires forall k | 0 <= k < |s| :: s[k] != x
    ensures Distinct(s) ==> Distinct(s + [x])
  {
  }

  /** The total number of projectiles the turrets fire for the draws `rs`. */
  function FireTotal(rs: seq<real>): nat
    requires forall i | 0 <= i < |rs| :: 0.0 <= rs[i] < 1.0
  {
    if rs == [] then 0 else FireTotal(rs[..|rs| - 1]) + FireCount(rs[|rs| - 1])
  }

  /** One more turret adds its own ring to the total. */
  lemma FireTotalNext(rs: seq<real>, i: nat)
    requires i < |rs|
    requires forall k | 0 <= k < |rs| :: 0.0 <= rs[k] < 1.0
    ensures FireTotal(rs[..i + 1]) == FireTotal(rs[..i]) + FireCount(rs[i])
  {
    assert rs[..i + 1][..i] == rs[..i];
  }

  /** Every ring has one to twenty projectiles, so a volley of `k` turrets
      fires between `k` and `20 * k`. */
  lemma {:induction false} FireTotalBounds(rs: seq<real>)
    requires forall i | 0 <= i < |rs| :: 0.0 <= rs[i] < 1.0
    ensures |rs| <= FireTotal(rs) <= 20 * |rs|
  {
    if rs != [] {
      FireTotalBounds(rs[..|rs| - 1]);
    }
  }

  /** The fire gate of `animate`: `(timeStamp - oldTimeStamp) / 1000 > 5`.
      The first frame is the direct call `animate()` from `init`, whose time
      stamp is `undefined` (`None`): the quotient is `NaN` and the gate stays
      shut. A later frame fires exactly when more than 5000 ms have passed
      since the last volley. */
  function VolleyDue(timeStamp: Option<real>, last: real): (due: bool)
    ensures due <==> timeStamp.Some? && timeStamp.value > last + 5000.0
  {
    timeStamp.Some? && (timeStamp.value - last) / 1000.0 > 5.0
  }

  /** `starts` cuts the range from `first` to `last` into `k` consecutive
      pieces, piece `i` running from `starts[i]` to `starts[i + 1]`. */
  ghost predicate Marks(starts: seq<nat>, first: nat, k: nat, last: nat)
  {
    && |starts| == k + 1 && starts[0] == first && starts[k] == last
    && forall i, m | 0 <= i <= m <= k :: starts[i] <= starts[m]
  }

  /** A further piece ending at `next` extends the cut by one. */
  lemma MarksPush(starts: seq<nat>, first: nat, k: nat, last: nat, next: nat)
    requires Marks(starts, first, k, last) && last <= next
    ensures Marks(starts + [next], first, k + 1, next)
    ensures forall i | 0 <= i <= k :: (starts + [next])[i] == starts[i]
  {
  }

  /** The module state of `index.js`. */
  class Game {
    var width: real
    var height: real
    var turrets: seq<Turret>
    /** The `projectiles` array; `reset` empties it. */
    const projectiles: SharedList<Projectile>
    var oldTimeStamp: real

    ghost predicate Valid()
      reads this, turrets, projectiles
    {
      && Distinct(turrets)
      && (forall i | 0 <= i < |turrets| :: turrets[i].Valid())
      && Distinct(projectiles.items)
    }

    /** The state when the script loads: no turrets, no projectiles, time 0. */
    constructor ()
      ensures Valid() && fresh(projectiles)
      ensures turrets == [] && projectiles.items == [] && oldTimeStamp == 0.0
    {
      width, height := 0.0, 0.0;
      turrets := [];
      projectiles := new SharedList();
      oldTimeStamp := 0.0;
    }

    /** Turret `t` was built for a canvas of `w` by `h` with the speed draw `rv`. */
    ghost predicate Placed(t: Turret, w: real, h: real, rv: real)
      requires 0.0 < h && 0.0 <= rv < 1.0
      reads t
    {
      t.width == w && t.height == h && t.y == 0.0 && t.velY == TurretSpeed(h, rv)
    }

    /** `turrets.push(new Turret())` with the draws `rx` and `rv`. */
    method AddTurret(rx: real, rv: real) returns (t: Turret)
      requires Valid()
      requires 0.0 < height && 0.0 <= width
      requires 0.0 <= rx < 1.0 && 0.0 <= rv < 1.0
      modifies this`turrets
      ensures Valid()
      ensures fresh(t) && turrets == old(turrets) + [t]
      ensures Placed(t, width, height, rv)
    {
      t := new Turret(width, height, rx, rv);
      assert forall k | 0 <= k < |turrets| :: turrets[k] != t;
      turrets := turrets + [t];
    }

    /** Turrets `ts` were built, in order, for a canvas of `w` by `h`, turret
        `j` with the speed draw `draws[j].1`. */
    ghost predicate PlacedAll(ts: seq<Turret>, w: real, h: real, draws: seq<(real, real)>)
      requires 0.0 < h
      requires forall i | 0 <= i < |draws| :: 0.0 <= draws[i].1 < 1.0
      reads set t | t in ts
    {
      && |ts| == |draws|
      && forall j | 0 <= j < |ts| :: Placed(ts[j], w, h, draws[j].1)
    }

    /** `init()`: take the window size and add `TurretNumber` new turrets
        after those already there, turret `i` built with the draws
        `draws[i]`. Starting the animation is not part of this model. */
    method Init(w: real, h: real, draws: seq<(real, real)>)
      requires Valid()
      requires 0.0 < h && 0.0 <= w
      requires |draws| == TurretNumber
      requires forall i | 0 <= i < |draws| :: 0.0 <= draws[i].0 < 1.0 && 0.0 <= draws[i].1 < 1.0
      modifies this`width, this`height, this`turrets
      ensures Valid()
      ensures width == w && height == h
      ensures |old(turrets)| <= |turrets| && turrets[..|old(turrets)|] == old(turrets)
      ensures forall t | t in turrets[|old(turrets)|..] :: fresh(t)
      ensures PlacedAll(turrets[|old(turrets)|..], w, h, draws)
    {
      width, height := w, h;
      ghost var before := turrets;
      ghost var made: seq<Turret> := [];
      for i := 0 to TurretNumber
        invariant width == w && height == h
        invariant turrets == before + made
        invariant Valid()
        invariant forall t | t in made :: fresh(t)
        invariant PlacedAll(made, w, h, draws[..i])
      {
        var t := AddTurret(draws[i].0, draws[i].1);
        made := made + [t];
      }
      assert turrets[|before|..] == made;
      assert draws[..TurretNumber] == draws;
    }

    /** `reset()`: drop every turret and every projectile. */
    method Reset()
      modifies this`turrets, projectiles
      ensures turrets == [] && projectiles.items == []
      ensures Valid()
    {
      turrets := [];
      projectiles.Clear();
    }

    /** One frame of `animate(timeStamp)`: every turret moves; when the
        volley is due, every turret fires from where it now is and the time
        stamp is kept; then every projectile, old and new, moves one step.
        The random draws are `moves[i]` for turret `i`'s update and
        `rings[i]` for its ring; `starts` marks where each ring begins. */
    method Animate(timeStamp: Option<real>, moves: seq<(real, real)>, rings: seq<real>, sin: real -> real, cos: real -> real)
      returns (ghost starts: seq<nat>)
      requires Valid()
      requires |moves| == |turrets| && |rings| == |turrets|
      requires forall i | 0 <= i < |moves| :: 0.0 <= moves[i].0 < 1.0 && 0.0 <= moves[i].1 < 1.0
      requires forall i | 0 <= i < |rings| :: 0.0 <= rings[i] < 1.0
      modifies this`oldTimeStamp, turrets, projectiles, projectiles.items
      ensures Valid()
      ensures turrets == old(turrets)
      ensures forall i | 0 <= i < |turrets| :: turrets[i].Stepped(moves[i].0, moves[i].1)
      ensures |old(projectiles.items)| <= |projectiles.items|
      ensures projectiles.items[..|old(projectiles.items)|] == old(projectiles.items)
      ensures forall j | 0 <= j < |old(projectiles.items)| :: old(projectiles.items)[j].Flew()
      ensures VolleyDue(timeStamp, old(oldTimeStamp)) ==>
        && oldTimeStamp == timeStamp.value
        && |projectiles.items| == |old(projectiles.items)| + FireTotal(rings)
        && (forall j | |old(projectiles.items)| <= j < |projectiles.items| :: fresh(projectiles.items[j]))
        && Volley(starts, |old(projectiles.items)|, |turrets|, rings, sin, cos, true)
      ensures !VolleyDue(timeStamp, old(oldTimeStamp)) ==>
        oldTimeStamp == old(oldTimeStamp) && projectiles.items == old(projectiles.items)
    {
      UpdateTurrets(moves);
      starts := FireAndMove(timeStamp, rings, sin, cos);
    }

    /** The rest of `animate(timeStamp)` once the turrets have moved: the
        fire gate, then `projectiles.forEach((projectile) => projectile.update())`. */
    method FireAndMove(timeStamp: Option<real>, rings: seq<real>, sin: real -> real, cos: real -> real)
      returns (ghost starts: seq<nat>)
      requires Valid()
      requires |rings| == |turrets|
      requires forall i | 0 <= i < |rings| :: 0.0 <= rings[i] < 1.0
      modifies this`oldTimeStamp, projectiles, projectiles.items
      ensures Valid()
      ensures |old(projectiles.items)| <= |projectiles.items|
      ensures projectiles.items[..|old(projectiles.items)|] == old(projectiles.items)
      ensures forall j | 0 <= j < |old(projectiles.items)| :: old(projectiles.items)[j].Flew()
      ensures VolleyDue(timeStamp, old(oldTimeStamp)) ==>
        && oldTimeStamp == timeStamp.value
        && |projectiles.items| == |old(projectiles.items)| + FireTotal(rings)
        && (forall j | |old(projectiles.items)| <= j < |projectiles.items| :: fresh(projectiles.items[j]))
        && Volley(starts, |old(projectiles.items)|, |turrets|, rings, sin, cos, true)
      ensures !VolleyDue(timeStamp, old(oldTimeStamp)) ==>
        oldTimeStamp == old(oldTimeStamp) && projectiles.items == old(projectiles.items)
    {
      starts := [];
      var due := false;
      if timeStamp.Some? {
        var secondsPassed := (timeStamp.value - oldTimeStamp) / 1000.0;
        due := secondsPassed > 5.0;
      }
      if due {
        starts := FireVolley(timeStamp.value, rings, sin, cos);
      } else {
        UpdateProjectiles();
      }
    }

    /** The frame of `animate` at time `stamp` once the gate is open: every
        turret fires, the time stamp is kept, and then every projectile
        moves one step. */
    method FireVolley(stamp: real, rings: seq<real>, sin: real -> real, cos: real -> real)
      returns (ghost starts: seq<nat>)
      requires Valid()
      requires |rings| == |turrets|
      requires forall i | 0 <= i < |rings| :: 0.0 <= rings[i] < 1.0
      modifies this`oldTimeStamp, projectiles, projectiles.items
      ensures Valid()
      ensures oldTimeStamp == stamp
      ensures |projectiles.items| == |old(projectiles.items)| + FireTotal(rings)
      ensures projectiles.items[..|old(projectiles.items)|] == old(projectiles.items)
      ensures forall j | 0 <= j < |old(projectiles.items)| :: old(projectiles.items)[j].Flew()
      ensures forall j | |old(projectiles.items)| <= j < |projectiles.items| :: fresh(projectiles.items[j])
      ensures Volley(starts, |old(projectiles.items)|, |turrets|, rings, sin, cos, true)
    {
      ghost var before := projectiles.items;
      starts := FireAll(rings, sin, cos);
      oldTimeStamp := stamp;
      assert forall j | 0 <= j < |before| :: before[j] == projectiles.items[j];
      label Fired:
      assert forall j | 0 <= j < |before| :: unchanged(before[j]);
      UpdateVolley(starts, rings, sin, cos);
      forall j | 0 <= j < |before|
        ensures before[j].Flew()
      {
        assert before[j].Flew@Fired();
      }
    }

    /** `projectiles.forEach((projectile) => projectile.update())` right
        after a volley: every ring, flown one frame, is still a ring of the
        turret that fired it. */
    method UpdateVolley(ghost starts: seq<nat>, rings: seq<real>, sin: real -> real, cos: real -> real)
      requires Valid()
      requires |rings| == |turrets|
      requires forall i | 0 <= i < |rings| :: 0.0 <= rings[i] < 1.0
      requires 0 < |starts| && Volley(starts, starts[0], |turrets|, rings, sin, cos, false)
      modifies projectiles.items
      ensures Valid()
      ensures forall j | 0 <= j < |projectiles.items| :: projectiles.items[j].Flew()
      ensures Volley(starts, starts[0], |turrets|, rings, sin, cos, true)
    {
      UpdateProjectiles();
      forall i | 0 <= i < |turrets|
        ensures turrets[i].Ring(projectiles.items[starts[i]..starts[i + 1]], FireCount(rings[i]), sin, cos, true)
      {
        var ps := projectiles.items[starts[i]..starts[i + 1]];
        var n := FireCount(rings[i]);
        forall j | 0 <= j < |ps|
          ensures turrets[i].Launched(ps[j], n, j, sin, cos, true)
        {
          assert ps[j] == projectiles.items[starts[i] + j];
          assert old(turrets[i].Launched(ps[j], n, j, sin, cos, false));
        }
      }
    }

    /** `turrets.forEach((turret) => turret.update())`: every turret makes
        its own step, turret `i` with the draws `moves[i]`. */
    method UpdateTurrets(moves: seq<(real, real)>)
      requires Valid()
      requires |moves| == |turrets|
      requires forall i | 0 <= i < |moves| :: 0.0 <= moves[i].0 < 1.0 && 0.0 <= moves[i].1 < 1.0
      modifies turrets
      ensures Valid()
      ensures forall i | 0 <= i < |turrets| :: turrets[i].Stepped(moves[i].0, moves[i].1)
    {
      for i := 0 to |turrets|
        invariant Valid()
        invariant forall j | 0 <= j < i :: turrets[j].Stepped(moves[j].0, moves[j].1)
        invariant forall j | i <= j < |turrets| :: unchanged(turrets[j])
      {
        turrets[i].Update(moves[i].0, moves[i].1);
      }
    }

    /** The projectiles from index `first` on are the rings of the first
        `k` turrets, in turret order: turret `i`'s ring of `FireCount(rings[i])`
        lies between `starts[i]` and `starts[i + 1]`, each projectile of it
        `flown` one frame or none. */
    ghost predicate Volley(starts: seq<nat>, first: nat, k: nat, rings: seq<real>,
                           sin: real -> real, cos: real -> real, flown: bool)
      requires k <= |turrets| && |rings| == |turrets|
      requires forall i | 0 <= i < |rings| :: 0.0 <= rings[i] < 1.0
      reads this, turrets, projectiles, projectiles.items
    {
      && Marks(starts, first, k, |projectiles.items|)
      && forall i | 0 <= i < k ::
           turrets[i].Ring(projectiles.items[starts[i]..starts[i + 1]], FireCount(rings[i]), sin, cos, flown)
    }

    /** `turrets.forEach((turret) => turret.fire())`, turret `i` with the
        draw `rings[i]`: after the projectiles already in flight come turret
        0's ring, then turret 1's, and so on, `starts` marking where each begins. */
    method FireAll(rings: seq<real>, sin: real -> real, cos: real -> real) returns (ghost starts: seq<nat>)
      requires Valid()
      requires |rings| == |turrets|
      requires forall i | 0 <= i < |rings| :: 0.0 <= rings[i] < 1.0
      modifies projectiles
      ensures Valid()
      ensures |projectiles.items| == |old(projectiles.items)| + FireTotal(rings)
      ensures projectiles.items[..|old(projectiles.items)|] == old(projectiles.items)
      ensures forall j | |old(projectiles.items)| <= j < |projectiles.items| :: fresh(projectiles.items[j])
      ensures Volley(starts, |old(projectiles.items)|, |turrets|, rings, sin, cos, false)
    {
      ghost var before := projectiles.items;
      starts := [|before|];
      for i := 0 to |turrets|
        invariant Distinct(projectiles.items)
        invariant |projectiles.items| == |before| + FireTotal(rings[..i])
        invariant projectiles.items[..|before|] == before
        invariant forall j | |before| <= j < |projectiles.items| :: fresh(projectiles.items[j])
        invariant Volley(starts, |before|, i, rings, sin, cos, false)
      {
        ghost var mid := projectiles.items;
        starts := FireNext(rings, sin, cos, starts, |before|, i);
        assert projectiles.items[..|mid|][..|before|] == before;
        forall j | |before| <= j < |mid|
          ensures fresh(projectiles.items[j])
        {
          assert projectiles.items[j] == projectiles.items[..|mid|][j];
        }
        FireTotalNext(rings, i);
      }
      assert rings[..|turrets|] == rings;
    }

    /** Round `i` of `FireAll`: turret `i`'s ring follows the rings of the
        turrets before it. */
    method FireNext(rings: seq<real>, sin: real -> real, cos: real -> real,
                    ghost starts: seq<nat>, ghost first: nat, i: nat) returns (ghost starts': seq<nat>)
      requires Distinct(projectiles.items)
      requires i < |turrets| && |rings| == |turrets|
      requires forall k | 0 <= k < |rings| :: 0.0 <= rings[k] < 1.0
      requires Volley(starts, first, i, rings, sin, cos, false)
      modifies projectiles
      ensures Distinct(projectiles.items)
      ensures |projectiles.items| == |old(projectiles.items)| + FireCount(rings[i])
      ensures projectiles.items[..|old(projectiles.items)|] == old(projectiles.items)
      ensures forall j | |old(projectiles.items)| <= j < |projectiles.items| :: fresh(projectiles.items[j])
      ensures Volley(starts', first, i + 1, rings, sin, cos, false)
    {
      ghost var mid := projectiles.items;
      turrets[i].Fire(rings[i], sin, cos, projectiles);
      assert projectiles.items[..|mid|] == mid;
      starts' := starts + [|projectiles.items|];
      MarksPush(starts, first, i, |mid|, |projectiles.items|);
      forall m | 0 <= m < i
        ensures turrets[m].Ring(projectiles.items[starts'[m]..starts'[m + 1]], FireCount(rings[m]), sin, cos, false)
      {
        var ps := mid[starts[m]..starts[m + 1]];
        assert projectiles.items[starts[m]..starts[m + 1]] == ps;
        assert old(turrets[m].Ring(ps, FireCount(rings[m]), sin, cos, false));
      }
      assert starts'[i] == |mid|;
    }

    /** `projectiles.forEach((projectile) => projectile.update())`. */
    method UpdateProjectiles()
      requires Valid()
      modifies projectiles.items
      ensures Valid()
      ensures forall p | p in projectiles.items :: p.x == old(p.x) + p.velX && p.y == old(p.y) + p.velY
      ensures forall j | 0 <= j < |projectiles.items| :: projectiles.items[j].Flew()
    {
      var items := projectiles.items;
      for i := 0 to |items|
        invariant forall j | 0 <= j < i :: items[j].Flew()
        invariant forall j | i <= j < |items| :: unchanged(items[j])
      {
        items[i].Update();
      }
    }
  }
}
