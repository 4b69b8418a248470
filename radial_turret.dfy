/** `RadialTurret` of `Turret.js`: a turret that fires rings of radial
    projectiles around itself in one of four patterns (a burst with a random
    gap, spiral rings, flower rings and windmill rings), the last three spread
    over time as series of delayed sub-events.

    `numRadialProjectiles` (written `count` below) and `hardMode` are read from
    the game settings at the moment of each call and are parameters here;
    every `Math.random()` draw is a parameter in [0, 1). Angles are multiples
    of pi (`Angle(Fixed, t)` is the angle `t * Math.PI`). */
module RadialTurrets {
  import opened Common
  import opened Timers
  import opened Projectiles
  import opened Turrets

  /** The entries of `fireRadialMethods`, in their order. */
  datatype RadialPattern = Burst | Windmill | Flower | Spiral

  const RadialMethods: seq<RadialPattern> := [Burst, Windmill, Flower, Spiral]

  /** The colour names a radial turret chooses from, as `Turret.js` lists them:
      the third has no shade table. */
  const PaletteAsWritten: seq<string> := ["red", "magenta", "pink"]

  /** The palette the model uses: the third entry is the pink that has a table. */
  const Palette: seq<string> := ["red", "magenta", "darkPink"]

  /** A turret of the listed palette that picks its third colour makes
      projectiles whose `draw` has no shade table to read. */
  lemma PaletteAsWrittenHasNoTable()
    ensures |PaletteAsWritten| == 3
    ensures ColourTable(PaletteAsWritten[PickIndex(0.9, |PaletteAsWritten|)]).None?
  {
    assert PickIndex(0.9, 3) == 2;
  }

  /** Every colour of the corrected palette names a shade table, whichever draw picks it. */
  lemma PaletteHasTables(r: real)
    requires 0.0 <= r < 1.0
    ensures ColourTable(Palette[PickIndex(r, |Palette|)]).Some?
  {
  }

  /** The turret's speed: a quarter to a half of a thousandth of the canvas
      height per frame, or, in hard mode when the coin draw is below one half,
      half to a whole hundredth. */
  function RadialSpeed(height: real, rSlow: real, hardMode: bool, coin: real, rFast: real): (v: real)
    requires 0.0 <= height && 0.0 <= rSlow < 1.0 && 0.0 <= rFast < 1.0
    ensures hardMode && coin < 0.5 ==> height * 0.005 <= v <= height * 0.01
    ensures !(hardMode && coin < 0.5) ==> height * 0.00025 <= v <= height * 0.0005
    ensures 0.0 < height ==> v < (if hardMode && coin < 0.5 then height * 0.01 else height * 0.0005)
  {
    if hardMode && coin < 0.5 then ScaledRange(height, rFast, 0.005, 0.005)
    else ScaledRange(height, rSlow, 0.00025, 0.00025)
  }

  /** The burst skips angle `t` (in half-turns) when it lies strictly within
      5% of the random partition `p` on either side. */
  predicate InGap(t: real, p: real)
  {
    t > p * 0.95 && t < p * 1.05
  }

  /** The angle of burst projectile `i` out of `n`, in half-turns: `i` slices of `2/n`. */
  function BurstAngle(i: nat, n: real): real
    requires 0.0 < n
  {
    2.0 / n * i as real
  }

  /** The indices among the first `k` of a burst of `n` that are fired, in increasing order. */
  function BurstIndices(n: real, p: real, k: nat): (r: seq<nat>)
    requires k > 0 ==> 0.0 < n
    ensures |r| <= k
    ensures forall j | 0 <= j < |r| :: r[j] < k && !InGap(BurstAngle(r[j], n), p)
    ensures forall j, j' | 0 <= j < j' < |r| :: r[j] < r[j']
    ensures forall i: nat | i < k && !InGap(BurstAngle(i, n), p) :: i in r
  {
    if k == 0 then []
    else
      var prev := BurstIndices(n, p, k - 1);
      if InGap(BurstAngle(k - 1, n), p) then prev else prev + [k - 1]
  }

  /** The projectile fired for burst index `i`: `(cos(a), sin(-a))` for its angle `a`. */
  function BurstShot(x: real, y: real, n: real, i: nat, colourName: string): (s: Shot)
    requires 0.0 < n
    ensures s.velocity.Polar? && s.velocity.magnitude == 1.0
    ensures s.velocity.cosOf == Angle(Fixed, BurstAngle(i, n)) && s.velocity.sinOf == Angle(Fixed, -BurstAngle(i, n))
  {
    Shot(x, y, Polar(1.0, Angle(Fixed, BurstAngle(i, n)), Angle(Fixed, -BurstAngle(i, n))), Named(colourName))
  }

  /** The projectiles of the first `k` rounds of a burst. */
  function BurstPrefix(x: real, y: real, n: real, p: real, colourName: string, k: nat): (r: seq<Shot>)
    requires k > 0 ==> 0.0 < n
    ensures |r| == |BurstIndices(n, p, k)|
    ensures forall j | 0 <= j < |r| :: r[j] == BurstShot(x, y, n, BurstIndices(n, p, k)[j], colourName)
  {
    var idx := BurstIndices(n, p, k);
    seq(|idx|, j requires 0 <= j < |idx| => BurstShot(x, y, n, idx[j], colourName))
  }

  /** One more round of the burst loop adds the projectile of that round unless it is in the gap. */
  lemma BurstPrefixStep(x: real, y: real, n: real, p: real, colourName: string, k: nat)
    requires 0.0 < n
    ensures BurstPrefix(x, y, n, p, colourName, k + 1)
         == BurstPrefix(x, y, n, p, colourName, k)
            + (if InGap(BurstAngle(k, n), p) then [] else [Shot(x, y, Polar(1.0, Angle(Fixed, BurstAngle(k, n)), Angle(Fixed, -BurstAngle(k, n))), Named(colourName))])
  {
  }

  /** A whole burst: the projectiles of every index the gap does not skip. */
  function BurstShots(x: real, y: real, n: real, p: real, colourName: string): (r: seq<Shot>)
    ensures |r| <= Iterations(n)
  {
    BurstPrefix(x, y, n, p, colourName, Iterations(n))
  }

  /** Burst index `i` is fired exactly when it is below the loop bound and its
      angle is outside the gap; the burst fires at most `n` projectiles. */
  lemma BurstFiresOutsideGap(n: real, p: real, i: nat)
    requires 0.0 < n
    ensures i in BurstIndices(n, p, Iterations(n)) <==> (i as real) < n && !InGap(BurstAngle(i, n), p)
    ensures |BurstIndices(n, p, Iterations(n))| <= Iterations(n)
  {
    var idx := BurstIndices(n, p, Iterations(n));
    if i in idx {
      var j :| 0 <= j < |idx| && idx[j] == i;
      assert i < Iterations(n);
    }
  }

  /** Number of rings of a spiral attack: `count * 5 * (1 + k)` with `k` drawn from {0, 1, 2}. */
  function SpiralCount(count: nat, r: real): (c: real)
    requires 0.0 <= r < 1.0
    ensures c == (count * 5) as real || c == (count * 10) as real || c == (count * 15) as real
  {
    var k := PickIndex(r, 3);
    assert k == 0 || k == 1 || k == 2;
    (count * 5) as real * (1 + k) as real
  }

  /** Number of rings of a flower attack: `count * 2.5 * (1 + k)`, so 2.5, 5 or 7.5 rings per unit of `count`. */
  function FlowerCount(count: nat, r: real): (c: real)
    requires 0.0 <= r < 1.0
    ensures c == count as real * 2.5 || c == count as real * 5.0 || c == count as real * 7.5
  {
    var k := PickIndex(r, 3);
    assert k == 0 || k == 1 || k == 2;
    count as real * 2.5 * (1 + k) as real
  }

  /** Number of rings of a windmill attack: `count * (0.5 + 0.5 * k)`, so half, one or one and a half times `count`. */
  function WindmillCount(count: nat, r: real): (c: real)
    requires 0.0 <= r < 1.0
    ensures c == count as real * 0.5 || c == count as real || c == count as real * 1.5
  {
    var k := PickIndex(r, 3);
    assert k == 0 || k == 1 || k == 2;
    count as real * (0.5 + 0.5 * k as real)
  }

  /** The timers of a series of `n` rings: ring `i` runs `event` after `i * step` ms. */
  function RingSeries(event: Event, n: real, step: nat): (s: seq<Timer<Event>>)
    ensures |s| == Iterations(n)
    ensures forall i | 0 <= i < |s| :: s[i] == Timer(event, i * step)
  {
    seq(Iterations(n), i requires 0 <= i => Timer(event, i * step))
  }

  /** The rings of a pattern with a positive step leave in order, one per
      step; with a zero step they all leave at once. */
  lemma RingInOrder(event: Event, n: real, step: nat)
    ensures 0 < step ==> InOrder(RingSeries(event, n, step))
    ensures step == 0 ==> forall i | 0 <= i < |RingSeries(event, n, step)| :: RingSeries(event, n, step)[i].delay == 0
  {
    if 0 < step {
      EvenlySpaced(RingSeries(event, n, step), step);
    }
  }

  /** The angle of projectile `j` of an `n`-projectile windmill fan turned by
      `base` half-turns: `j` slices of `2/n` past `base`. */
  function FanAngle(n: nat, base: real, j: nat): real
    requires j < n
  {
    base + 2.0 / n as real * j as real
  }

  /** Projectile `j` of an `n`-projectile windmill fan turned by `base` half-turns. */
  function FanShot(x: real, y: real, n: nat, base: real, j: nat, colourName: string): (s: Shot)
    requires j < n
    ensures s.velocity == Along(1.0, Angle(Fixed, FanAngle(n, base, j)))
  {
    Shot(x, y, Along(1.0, Angle(Fixed, FanAngle(n, base, j))), Named(colourName))
  }

  /** The `n`-projectile fan of a windmill ring, turned by `base` half-turns. */
  function Fan(x: real, y: real, n: nat, base: real, colourName: string): (r: seq<Shot>)
    ensures |r| == n
    ensures forall j | 0 <= j < n :: r[j] == FanShot(x, y, n, base, j, colourName)
  {
    seq(n, j requires 0 <= j < n => FanShot(x, y, n, base, j, colourName))
  }

  /** The staggered fan is the straight fan turned by the accumulated offset,
      projectile by projectile, with the same spacing of `2/n` half-turns. */
  lemma FanTurned(x: real, y: real, n: nat, base: real, colourName: string, j: nat)
    requires j < n
    ensures Fan(x, y, n, base, colourName)[j].velocity.cosOf.halfTurns
         == Fan(x, y, n, 0.0, colourName)[j].velocity.cosOf.halfTurns + base
    ensures j + 1 < n ==>
      Fan(x, y, n, base, colourName)[j + 1].velocity.cosOf.halfTurns == Fan(x, y, n, base, colourName)[j].velocity.cosOf.halfTurns + 2.0 / n as real
  {
    var step := 2.0 / n as real;
    assert step * (j + 1) as real == step * j as real + step;
  }

  lemma FanPrefix(x: real, y: real, n: nat, base: real, colourName: string, j: nat)
    requires j < n
    ensures Fan(x, y, n, base, colourName)[..j + 1]
         == Fan(x, y, n, base, colourName)[..j] + [Shot(x, y, Along(1.0, Angle(Fixed, FanAngle(n, base, j))), Named(colourName))]
    ensures Fan(x, y, n, base, colourName)[..n] == Fan(x, y, n, base, colourName)
  {
  }

  class RadialTurret {
    const body: Turret
    /** The angle accumulated by spiral, flower and windmill rings, in half-turns. */
    var offSet: real
    const fireRadialMethods: seq<RadialPattern>
    const projectileColours: seq<string>

    ghost predicate Valid()
      reads this, body, body.timers
    {
      && body.Valid()
      && fireRadialMethods == RadialMethods
      && projectileColours == Palette
    }

    /** `new RadialTurret(canvas, ctx, projectiles)`. */
    constructor (width: real, height: real, timers: Scheduler<Event>, projectiles: SharedList<Shot>,
                 hardMode: bool, rx: real, rSlow: real, coin: real, rFast: real)
      requires 0.0 <= height && timers.Valid()
      requires 0.0 <= rx < 1.0 && 0.0 <= rSlow < 1.0 && 0.0 <= rFast < 1.0
      ensures Valid()
      ensures fresh(body)
      ensures body.width == width && body.height == height && body.timers == timers && body.projectiles == projectiles
      ensures body.radius == height * 0.01 && body.y == -body.radius
      ensures body.x == body.radius + rx * (width - 2.0 * body.radius)
      ensures body.velY == RadialSpeed(height, rSlow, hardMode, coin, rFast)
      ensures body.fireTimeoutID == None && body.delayedTimeoutIDs == []
      ensures offSet == 0.0
    {
      body := new Turret(width, height, timers, projectiles, rx, RadialSpeed(height, rSlow, hardMode, coin, rFast));
      offSet := 0.0;
      fireRadialMethods := RadialMethods;
      projectileColours := Palette;
    }

    /** `#fireRadial`: `count * 5` projectiles evenly around the turret, except
        those whose angle falls in the gap around the partition `1 + r` half-turns. */
    method FireRadial(colourName: string, count: nat, r: real)
      requires 0.0 <= r < 1.0
      modifies body.projectiles
      ensures body.projectiles.items == old(body.projectiles.items) + BurstShots(body.x, body.y, (count * 5) as real, 1.0 + r, colourName)
    {
      var n := (count * 5) as real;
      var p := 1.0 + r;
      var x, y := body.x, body.y;
      ghost var before := body.projectiles.items;
      ghost var pushed: seq<Shot> := [];
      var i := 0;
      while (i as real) < n
        invariant i <= Iterations(n)
        invariant i > 0 ==> 0.0 < n
        invariant body.projectiles.items == before + pushed
        invariant pushed == BurstPrefix(x, y, n, p, colourName, i)
        decreases Iterations(n) - i
      {
        var angle := BurstAngle(i, n);
        BurstPrefixStep(x, y, n, p, colourName, i);
        if !InGap(angle, p) {
          var s := Shot(x, y, Polar(1.0, Angle(Fixed, angle), Angle(Fixed, -angle)), Named(colourName));
          body.projectiles.Push(s);
          pushed := pushed + [s];
        }
        i := i + 1;
      }
    }

    /** `#spiralRing`: one projectile at the accumulated offset, which then grows by 0.33 half-turns. */
    method SpiralRing(colourName: string)
      modifies this`offSet, body.projectiles
      ensures body.projectiles.items == old(body.projectiles.items) + [Shot(body.x, body.y, Along(1.0, Angle(Fixed, old(offSet))), Named(colourName))]
      ensures offSet == old(offSet) + 0.33
    {
      var angle := offSet;
      body.projectiles.Push(Shot(body.x, body.y, Along(1.0, Angle(Fixed, angle)), Named(colourName)));
      offSet := offSet + 0.33;
    }

    /** `#flowerRing`: two projectiles mirrored about the horizontal axis, then 0.22 more half-turns of offset. */
    method FlowerRing(colourName: string)
      modifies this`offSet, body.projectiles
      ensures body.projectiles.items == old(body.projectiles.items) + [
                Shot(body.x, body.y, Along(1.0, Angle(Fixed, old(offSet))), Named(colourName)),
                Shot(body.x, body.y, Along(1.0, Angle(Fixed, -old(offSet))), Named(colourName))]
      ensures offSet == old(offSet) + 0.22
    {
      var angle := offSet;
      body.projectiles.Push(Shot(body.x, body.y, Along(1.0, Angle(Fixed, angle)), Named(colourName)));
      body.projectiles.Push(Shot(body.x, body.y, Along(1.0, Angle(Fixed, -angle)), Named(colourName)));
      offSet := offSet + 0.22;
    }

    /** `#windMillRing`: a straight fan of `count` projectiles, then the same fan
        turned by the accumulated offset, then 0.22 more half-turns of offset. */
    method WindmillRing(colourName: string, count: nat)
      modifies this`offSet, body.projectiles
      ensures body.projectiles.items == old(body.projectiles.items)
                + Fan(body.x, body.y, count, 0.0, colourName) + Fan(body.x, body.y, count, old(offSet), colourName)
      ensures |body.projectiles.items| == |old(body.projectiles.items)| + 2 * count
      ensures offSet == old(offSet) + 0.22
    {
      var x, y := body.x, body.y;
      ghost var before := body.projectiles.items;
      for j := 0 to count
        invariant offSet == old(offSet)
        invariant body.projectiles.items == before + Fan(x, y, count, 0.0, colourName)[..j]
      {
        var angle := FanAngle(count, 0.0, j);
        body.projectiles.Push(Shot(x, y, Along(1.0, Angle(Fixed, angle)), Named(colourName)));
        FanPrefix(x, y, count, 0.0, colourName, j);
      }
      ghost var straight := body.projectiles.items;
      var base := offSet;
      for j := 0 to count
        invariant offSet == base
        invariant body.projectiles.items == straight + Fan(x, y, count, base, colourName)[..j]
      {
        var angle := FanAngle(count, offSet, j);
        body.projectiles.Push(Shot(x, y, Along(1.0, Angle(Fixed, angle)), Named(colourName)));
        FanPrefix(x, y, count, base, colourName, j);
      }
      offSet := offSet + 0.22;
    }

    /** `#fireSpiralRings`: `SpiralCount` rings 10 ms apart, the record trimmed once afterwards. */
    method FireSpiralRings(colourName: string, count: nat, r: real)
      requires Valid() && 0.0 <= r < 1.0
      modifies body`delayedTimeoutIDs, body.timers
      ensures Valid()
      ensures body.Scheduled(RingSeries(Event.SpiralRing(colourName), SpiralCount(count, r), 10), SpiralCount(count, r), false)
    {
      var n := SpiralCount(count, r);
      body.ScheduleSeries(RingSeries(Event.SpiralRing(colourName), n, 10), n, false);
    }

    /** `#fireFlowerRings`: `FlowerCount` rings 20 ms apart, the record trimmed once afterwards. */
    method FireFlowerRings(colourName: string, count: nat, r: real)
      requires Valid() && 0.0 <= r < 1.0
      modifies body`delayedTimeoutIDs, body.timers
      ensures Valid()
      ensures body.Scheduled(RingSeries(Event.FlowerRing(colourName), FlowerCount(count, r), 20), FlowerCount(count, r), false)
    {
      var n := FlowerCount(count, r);
      body.ScheduleSeries(RingSeries(Event.FlowerRing(colourName), n, 20), n, false);
    }

    /** `#fireWindmillRings`: `WindmillCount` rings 120 ms apart, the record trimmed after every push. */
    method FireWindmillRings(colourName: string, count: nat, r: real)
      requires Valid() && 0.0 <= r < 1.0
      modifies body`delayedTimeoutIDs, body.timers
      ensures Valid()
      ensures body.Scheduled(RingSeries(Event.WindmillRing(colourName), WindmillCount(count, r), 120), WindmillCount(count, r), true)
    {
      var n := WindmillCount(count, r);
      body.ScheduleSeries(RingSeries(Event.WindmillRing(colourName), n, 120), n, true);
    }

    /** `#fireRandomRadialAttack`: picks a pattern with `rMethod` and a colour
        with `rColour` and fires it; `r` is the draw the pattern itself makes.
        The chosen colour always has a shade table. */
    method FireRandomRadialAttack(count: nat, rMethod: real, rColour: real, r: real) returns (pattern: RadialPattern, colourName: string)
      requires Valid()
      requires 0.0 <= rMethod < 1.0 && 0.0 <= rColour < 1.0 && 0.0 <= r < 1.0
      modifies body`delayedTimeoutIDs, body.timers, body.projectiles
      ensures Valid()
      ensures pattern == fireRadialMethods[PickIndex(rMethod, |fireRadialMethods|)]
      ensures colourName == projectileColours[PickIndex(rColour, |projectileColours|)]
      ensures ColourTable(colourName).Some?
      ensures pattern == Burst ==>
        && body.projectiles.items == old(body.projectiles.items) + BurstShots(body.x, body.y, (count * 5) as real, 1.0 + r, colourName)
        && unchanged(body.timers) && body.delayedTimeoutIDs == old(body.delayedTimeoutIDs)
      ensures pattern == Windmill ==>
        && body.Scheduled(RingSeries(Event.WindmillRing(colourName), WindmillCount(count, r), 120), WindmillCount(count, r), true)
        && body.projectiles.items == old(body.projectiles.items)
      ensures pattern == Flower ==>
        && body.Scheduled(RingSeries(Event.FlowerRing(colourName), FlowerCount(count, r), 20), FlowerCount(count, r), false)
        && body.projectiles.items == old(body.projectiles.items)
      ensures pattern == Spiral ==>
        && body.Scheduled(RingSeries(Event.SpiralRing(colourName), SpiralCount(count, r), 10), SpiralCount(count, r), false)
        && body.projectiles.items == old(body.projectiles.items)
    {
      pattern := fireRadialMethods[PickIndex(rMethod, |fireRadialMethods|)];
      colourName := projectileColours[PickIndex(rColour, |projectileColours|)];
      PaletteHasTables(rColour);
      match pattern
      case Burst => FireRadial(colourName, count, r);
      case Windmill => FireWindmillRings(colourName, count, r);
      case Flower => FireFlowerRings(colourName, count, r);
      case Spiral => FireSpiralRings(colourName, count, r);
    }

    /** `debounceFire`: replaces the pending dispatch with a new one 20 ms out. */
    method DebounceFire()
      requires Valid()
      modifies body`fireTimeoutID, body.timers
      ensures Valid()
      ensures body.fireTimeoutID == Some(old(body.timers.next))
      ensures body.timers.next == old(body.timers.next) + 1
      ensures body.timers.pending
           == (old(body.timers.pending) - HandleSet(old(body.fireTimeoutID)))[old(body.timers.next) := Timer(RadialDispatch, DebounceDelay)]
    {
      body.Debounce(RadialDispatch);
    }
  }
}
