/** `AimedTurret` of `Turret.js`: a turret that aims at the player and fires
    one of four patterns (five in hard mode) as a series of delayed
    sub-events: a line of single shots, a cone of shrinking rows, shotgun
    waves, an overtaking arrow and overtaking waves.

    `numAimedProjectiles` (written `n` below) is read from the game settings
    at the moment of each call and is a parameter here, as are the
    `Math.random()` draws and the turret-to-player distance that `Math.sqrt`
    computes. Angles are symbolic: `Angle(aim, t)` is the `Math.atan2` aim
    plus `t * Math.PI`. */
module AimedTurrets {
  import opened Common
  import opened Timers
  import opened Projectiles
  import opened Turrets
  import opened Players

  /** The entries of `fireAimedMethods`, in their order. */
  datatype AimedPattern = Line | Cone | Shotgun | Arrow | Waves

  /** The method list a turret gets at construction: the overtake waves only in hard mode. */
  function AimedMethods(hardMode: bool): (m: seq<AimedPattern>)
    ensures |m| == if hardMode then 5 else 4
    ensures m[..4] == [Line, Cone, Shotgun, Arrow]
    ensures Waves in m <==> hardMode
  {
    [Line, Cone, Shotgun, Arrow] + (if hardMode then [Waves] else [])
  }

  /** The hue of the `i`-th of `n` sub-events: `80 + (100 / n) * i`, spreading
      the series over the hues from 80 up to, not including, 180. */
  function Hue(i: nat, n: nat): (h: real)
    requires i < n
    ensures 80.0 <= h < 180.0
    ensures i == 0 ==> h == 80.0
  {
    var step := 100.0 / n as real;
    assert step * n as real == 100.0;
    assert step * i as real < step * n as real by {
      assert step * (n - i) as real > 0.0;
    }
    80.0 + step * i as real
  }

  /** Hues strictly rise along a series. */
  lemma HueRises(i: nat, j: nat, n: nat)
    requires i < j < n
    ensures Hue(i, n) < Hue(j, n)
  {
    var step := 100.0 / n as real;
    assert step * j as real - step * i as real == step * (j - i) as real;
  }

  /** The colour of the `i`-th of `n` sub-events: that hue at 82% saturation and 73% lightness. */
  function ShotColour(i: nat, n: nat): (c: Colour)
    requires i < n
    ensures c.Hsl? && c.saturation == 82 && c.light == 73 && 80.0 <= c.hue < 180.0
  {
    Hsl(Hue(i, n), 82, 73)
  }

  /** `#lineAttack`: shot `i` of `n` fires after `200 * i` ms. */
  function LineSeries(n: nat): (s: seq<Timer<Event>>)
    ensures |s| == n
    ensures forall i | 0 <= i < n :: s[i] == Timer(AimedShot(ShotColour(i, n)), 200 * i)
  {
    seq(n, i requires 0 <= i < n => Timer(AimedShot(ShotColour(i, n)), 200 * i))
  }

  /** A line attack's shots leave in order, each one a higher hue than the
      shot before it. */
  lemma LineInOrder(n: nat)
    ensures InOrder(LineSeries(n))
    ensures forall i, j | 0 <= i < j < n :: LineSeries(n)[i].event.colour.hue < LineSeries(n)[j].event.colour.hue
  {
    EvenlySpaced(LineSeries(n), 200);
    forall i, j | 0 <= i < j < n
      ensures LineSeries(n)[i].event.colour.hue < LineSeries(n)[j].event.colour.hue
    {
      HueRises(i, j, n);
    }
  }

  /** `#coneAttack`: row `i` of `n` has `n - i` projectiles and fires after `200 * i` ms. */
  function ConeSeries(n: nat): (s: seq<Timer<Event>>)
    ensures |s| == n
    ensures forall i | 0 <= i < n :: s[i] == Timer(ConeRow(n - i, ShotColour(i, n)), 200 * i)
  {
    seq(n, i requires 0 <= i < n => Timer(ConeRow(n - i, ShotColour(i, n)), 200 * i))
  }

  /** A cone's rows leave in order and narrow by one shot each: the first row
      has `n` shots and the last a single one. */
  lemma ConeInOrder(n: nat)
    ensures InOrder(ConeSeries(n))
    ensures forall i | 0 <= i && i + 1 < n :: ConeSeries(n)[i + 1].event.rowLen + 1 == ConeSeries(n)[i].event.rowLen
    ensures 0 < n ==> ConeSeries(n)[0].event.rowLen == n && ConeSeries(n)[n - 1].event.rowLen == 1
  {
    EvenlySpaced(ConeSeries(n), 200);
  }

  /** `#overtakeWaveAttack`: `3n` waves 100 ms apart, wave `i` with magnitude
      `0.3 + 0.3 (i + 1)` turned by `0.02 (i + 1)` half-turns. */
  function WaveSeries(n: nat): (s: seq<Timer<Event>>)
    ensures |s| == 3 * n
    ensures forall i | 0 <= i < 3 * n ::
      s[i] == Timer(Event.OvertakeWave(0.3 + (i + 1) as real * 0.3, (i + 1) as real * 0.02, ShotColour(i, 3 * n)), 100 * i)
  {
    seq(3 * n, i requires 0 <= i < 3 * n =>
      Timer(Event.OvertakeWave(0.3 + (i + 1) as real * 0.3, (i + 1) as real * 0.02, ShotColour(i, 3 * n)), 100 * i))
  }

  /** Each wave of an overtake-wave attack leaves later, faster and turned
      further than the one before: the later waves catch up with the earlier. */
  lemma WavesOvertake(n: nat, i: nat)
    requires i + 1 < 3 * n
    ensures WaveSeries(n)[i + 1].delay == WaveSeries(n)[i].delay + 100
    ensures WaveSeries(n)[i + 1].event.magnitude == WaveSeries(n)[i].event.magnitude + 0.3
    ensures WaveSeries(n)[i + 1].event.globalOffset == WaveSeries(n)[i].event.globalOffset + 0.02
  {
  }

  /** `#shotgunAttack`: `n` waves 100 ms apart. */
  function ShotgunSeries(n: nat): (s: seq<Timer<Event>>)
    ensures |s| == n
    ensures forall i | 0 <= i < n :: s[i] == Timer(ShotgunWave(ShotColour(i, n)), 100 * i)
  {
    seq(n, i requires 0 <= i < n => Timer(ShotgunWave(ShotColour(i, n)), 100 * i))
  }

  /** A shotgun attack's waves leave in order. */
  lemma ShotgunInOrder(n: nat)
    ensures InOrder(ShotgunSeries(n))
  {
    EvenlySpaced(ShotgunSeries(n), 100);
  }

  /** The `p`-th timer `#overtakeArrowAttack` schedules for an arrow of width
      `w` aimed along `aim`. The left wing (`p < w`, shot `i = p`) runs from
      `w + 1` steps of 0.05 half-turns below the aim upwards; the right wing
      (shot `i = 2w - 1 - p`, scheduled in decreasing `i`) continues two steps
      further on. Shot `i` of either wing has magnitude `i + 1`, the `i`-th
      colour and delay `100 * i`. */
  function ArrowTimer(aim: Aim, w: nat, p: nat): (t: Timer<Event>)
    requires p < 2 * w
  {
    if p < w then
      Timer(Event.OvertakeArrow(Angle(aim, 0.05 * (p as real - (w + 1) as real)), (p + 1) as real, ShotColour(p, w)), 100 * p)
    else
      var i := 2 * w - 1 - p;
      Timer(Event.OvertakeArrow(Angle(aim, 0.05 * (w - i) as real), (i + 1) as real, ShotColour(i, w)), 100 * i)
  }

  function ArrowSeries(aim: Aim, w: nat): (s: seq<Timer<Event>>)
    ensures |s| == 2 * w
    ensures forall p | 0 <= p < 2 * w :: s[p] == ArrowTimer(aim, w, p)
  {
    seq(2 * w, p requires 0 <= p < 2 * w => ArrowTimer(aim, w, p))
  }

  /** The left-wing timer the attack's loop builds for shot `i` at `angle`. */
  lemma ArrowLeft(aim: Aim, w: nat, i: nat, angle: real)
    requires i < w && angle == 0.05 * (i as real - (w + 1) as real)
    ensures ArrowSeries(aim, w)[i] == Timer(Event.OvertakeArrow(Angle(aim, angle), (i + 1) as real, ShotColour(i, w)), i * 100)
  {
  }

  /** The right-wing timer the attack's second loop builds for shot `i` at `angle`. */
  lemma ArrowRight(aim: Aim, w: nat, i: nat, angle: real)
    requires i < w && angle == 0.05 * (w - i) as real
    ensures ArrowSeries(aim, w)[2 * w - 1 - i] == Timer(Event.OvertakeArrow(Angle(aim, angle), (i + 1) as real, ShotColour(i, w)), i * 100)
  {
  }

  /** The two arrow shots that leave at the same time `100 * i` have the same
      magnitude, and their offsets from the aim sum to minus one step: the
      arrow is not centred on the player but one half-step below. */
  lemma ArrowPairs(aim: Aim, w: nat, i: nat)
    requires i < w
    ensures var left, right := ArrowSeries(aim, w)[i], ArrowSeries(aim, w)[2 * w - 1 - i];
      && left.delay == right.delay == 100 * i
      && left.event.magnitude == right.event.magnitude == (i + 1) as real
      && left.event.angle.aim == right.event.angle.aim == aim
      && left.event.angle.halfTurns + right.event.angle.halfTurns == -0.05
  {
  }

  lemma FloorBetween(x: real, h: int)
    requires h as real <= x < h as real + 1.0
    ensures x.Floor == h
  {
  }

  /** The start of a cone row, in steps of 0.01 half-turns below the aim:
      `rowLen / 2 - 1/2` for an even row, `floor(rowLen / 2)` for an odd one.
      Both are `(rowLen - 1) / 2`, so every row is centred on the aim. */
  function ConeStart(rowLen: nat): (s: real)
    ensures s == (rowLen as real - 1.0) / 2.0
  {
    if rowLen % 2 == 0 then rowLen as real * 0.5 - 0.5
    else
      var h := rowLen / 2;
      assert rowLen == 2 * h + 1;
      assert rowLen as real * 0.5 == h as real + 0.5;
      FloorBetween(rowLen as real * 0.5, h);
      (rowLen as real * 0.5).Floor as real
  }

  /** Projectile `i` of a cone row of `rowLen`: magnitude 1.5, `i - start`
      steps of 0.01 half-turns from the aim. */
  function ConeShot(x: real, y: real, aim: Aim, rowLen: nat, i: nat, colour: Colour): Shot
  {
    Shot(x, y, Along(1.5, Angle(aim, 0.01 * i as real - 0.01 * ConeStart(rowLen))), colour)
  }

  function ConeRowShots(x: real, y: real, aim: Aim, rowLen: nat, colour: Colour): (r: seq<Shot>)
    ensures |r| == rowLen
    ensures forall i | 0 <= i < rowLen :: r[i] == ConeShot(x, y, aim, rowLen, i, colour)
  {
    seq(rowLen, i requires 0 <= i < rowLen => ConeShot(x, y, aim, rowLen, i, colour))
  }

  /** A cone row is symmetric about the aim: projectiles `i` and `rowLen - 1 - i`
      are turned by opposite offsets, and the middle one of an odd row flies
      straight at the aim. */
  lemma ConeRowSymmetric(x: real, y: real, aim: Aim, rowLen: nat, i: nat, colour: Colour)
    requires i < rowLen
    ensures ConeRowShots(x, y, aim, rowLen, colour)[i].velocity.cosOf.halfTurns
          + ConeRowShots(x, y, aim, rowLen, colour)[rowLen - 1 - i].velocity.cosOf.halfTurns == 0.0
    ensures rowLen % 2 == 1 ==> ConeRowShots(x, y, aim, rowLen, colour)[rowLen / 2].velocity.cosOf.halfTurns == 0.0
  {
  }

  /** The number of projectiles the cone rows of `series` fire. */
  function RowTotal(series: seq<Timer<Event>>): nat
  {
    if series == [] then 0
    else RowTotal(series[..|series| - 1]) + (if series[|series| - 1].event.ConeRow? then series[|series| - 1].event.rowLen else 0)
  }

  lemma {:induction false} ConePrefixTotal(n: nat, k: nat)
    requires k <= n
    ensures 2 * RowTotal(ConeSeries(n)[..k]) == k * (2 * n + 1 - k)
  {
    if k > 0 {
      var prefix := ConeSeries(n)[..k];
      ConePrefixTotal(n, k - 1);
      assert prefix[..k - 1] == ConeSeries(n)[..k - 1];
      assert prefix[k - 1].event == ConeRow(n - (k - 1), ShotColour(k - 1, n));
      assert RowTotal(prefix) == RowTotal(prefix[..k - 1]) + (n - (k - 1));
      TriangleStep(n, k);
    }
  }

  lemma TriangleStep(n: nat, k: nat)
    requires 0 < k <= n
    ensures k * (2 * n + 1 - k) == (k - 1) * (2 * n + 1 - (k - 1)) + 2 * (n - (k - 1))
  {
  }

  /** A cone attack of `n` rows fires `n (n + 1) / 2` projectiles in all. */
  lemma ConeTotal(n: nat)
    ensures RowTotal(ConeSeries(n)) == n * (n + 1) / 2
  {
    ConePrefixTotal(n, n);
    assert ConeSeries(n)[..n] == ConeSeries(n);
  }

  /** The five projectiles of an overtake wave: magnitude `magnitude`, at
      `-0.25 + 0.1 i` half-turns from the aim plus the wave's own offset. */
  function WaveShots(x: real, y: real, aim: Aim, magnitude: real, globalOffset: real, colour: Colour): (r: seq<Shot>)
    ensures |r| == 5
    ensures forall i | 0 <= i < 5 :: r[i] == Shot(x, y, Along(magnitude, Angle(aim, -0.25 + 0.1 * i as real + globalOffset)), colour)
  {
    seq(5, i requires 0 <= i < 5 => Shot(x, y, Along(magnitude, Angle(aim, -0.25 + 0.1 * i as real + globalOffset)), colour))
  }

  /** The five shots of a wave are spread evenly 0.1 half-turns apart, and
      their middle one is 0.05 half-turns below the wave's offset from the aim. */
  lemma WaveSpread(x: real, y: real, aim: Aim, magnitude: real, globalOffset: real, colour: Colour, i: nat)
    requires i < 4
    ensures var r := WaveShots(x, y, aim, magnitude, globalOffset, colour);
      && r[i + 1].velocity.cosOf.halfTurns == r[i].velocity.cosOf.halfTurns + 0.1
      && r[2].velocity.cosOf.halfTurns == globalOffset - 0.05
  {
  }

  /** A draw pair of `Math.random()` values, one for each of the two trigonometric arguments of a shotgun shot. */
  predicate Jitter(jitter: seq<(real, real)>)
  {
    forall i | 0 <= i < |jitter| :: 0.0 <= jitter[i].0 < 1.0 && 0.0 <= jitter[i].1 < 1.0
  }

  /** The spread of one draw: `(r - 0.5) * 0.0625` half-turns. */
  function Spread(r: real): (t: real)
    requires 0.0 <= r < 1.0
    ensures -0.03125 <= t < 0.03125
  {
    (r - 0.5) * 0.0625
  }

  /** A shotgun wave: projectile `i` has magnitude 1.5, its cosine taken at the
      aim plus the spread of one draw and its sine at the aim plus the spread
      of another. */
  function ShotgunShots(x: real, y: real, aim: Aim, jitter: seq<(real, real)>, colour: Colour): (r: seq<Shot>)
    requires Jitter(jitter)
    ensures |r| == |jitter|
    ensures forall i | 0 <= i < |r| ::
      && r[i].velocity.Polar? && r[i].velocity.magnitude == 1.5
      && r[i].velocity.cosOf.aim == r[i].velocity.sinOf.aim == aim
      && -0.03125 <= r[i].velocity.cosOf.halfTurns < 0.03125
      && -0.03125 <= r[i].velocity.sinOf.halfTurns < 0.03125
  {
    seq(|jitter|, i requires 0 <= i < |jitter| =>
      Shot(x, y, Polar(1.5, Angle(aim, Spread(jitter[i].0)), Angle(aim, Spread(jitter[i].1))), colour))
  }

  /** Scaling `3 * (d / dist)` back by `dist` gives three times `d`: the shot
      flies along the turret-to-player vector, three units per unit of distance. */
  lemma AlongTheVector(d: real, dist: real)
    requires 0.0 < dist
    ensures (3.0 * (d / dist)) * dist == 3.0 * d
  {
    assert (d / dist) * dist == d;
  }

  class AimedTurret {
    const body: Turret
    /** The player this turret aims at; its position is read, never written. */
    const player: Player
    const fireAimedMethods: seq<AimedPattern>

    ghost predicate Valid()
      reads this, body, body.timers
    {
      && body.Valid()
      && (fireAimedMethods == AimedMethods(false) || fireAimedMethods == AimedMethods(true))
    }

    /** The aim from the turret to the player at this moment. */
    function AimAtPlayer(): (a: Aim)
      reads body, player
      ensures a.Toward? && a.fromX == body.x && a.toX == player.x
    {
      Toward(body.x, body.y, player.x, player.y)
    }

    /** `new AimedTurret(canvas, ctx, projectiles, player)`: speed between a
        half and a whole thousandth of the canvas height per frame. */
    constructor (width: real, height: real, timers: Scheduler<Event>, projectiles: SharedList<Shot>, player0: Player,
                 hardMode: bool, rx: real, rSpeed: real)
      requires 0.0 <= height && timers.Valid()
      requires 0.0 <= rx < 1.0 && 0.0 <= rSpeed < 1.0
      ensures Valid()
      ensures fresh(body) && player == player0
      ensures body.width == width && body.height == height && body.timers == timers && body.projectiles == projectiles
      ensures body.radius == height * 0.01 && body.y == -body.radius
      ensures body.x == body.radius + rx * (width - 2.0 * body.radius)
      ensures body.velY == ScaledRange(height, rSpeed, 0.0005, 0.0005)
      ensures height * 0.0005 <= body.velY <= height * 0.001
      ensures 0.0 < height ==> body.velY < height * 0.001
      ensures body.fireTimeoutID == None && body.delayedTimeoutIDs == []
      ensures fireAimedMethods == AimedMethods(hardMode)
    {
      body := new Turret(width, height, timers, projectiles, rx, ScaledRange(height, rSpeed, 0.0005, 0.0005));
      player := player0;
      var methods := [Line, Cone, Shotgun, Arrow];
      if hardMode {
        methods := methods + [Waves];
      }
      fireAimedMethods := methods;
    }

    /** `#lineAttack`. */
    method LineAttack(n: nat)
      requires Valid()
      modifies body`delayedTimeoutIDs, body.timers
      ensures Valid()
      ensures body.Scheduled(LineSeries(n), n as real, true)
    {
      body.ScheduleSeries(LineSeries(n), n as real, true);
    }

    /** `#fireAimed`: one projectile straight at the player, three times the
        unit vector from the turret to the player. `dist` is that distance
        (`Math.sqrt` of the squared components), which must not be zero. */
    method FireAimed(colour: Colour, dist: real)
      requires 0.0 < dist
      requires dist * dist == (body.x - player.x) * (body.x - player.x) + (body.y - player.y) * (body.y - player.y)
      modifies body.projectiles
      ensures body.projectiles.items == old(body.projectiles.items) + [
                Shot(body.x, body.y, Cartesian(3.0 * ((player.x - body.x) / dist), 3.0 * ((player.y - body.y) / dist)), colour)]
      ensures var v := body.projectiles.items[|body.projectiles.items| - 1].velocity;
        v.vx * dist == 3.0 * (player.x - body.x) && v.vy * dist == 3.0 * (player.y - body.y)
    {
      var velX := (player.x - body.x) / dist;
      var velY := (player.y - body.y) / dist;
      var magnitude := 3.0;
      AlongTheVector(player.x - body.x, dist);
      AlongTheVector(player.y - body.y, dist);
      body.projectiles.Push(Shot(body.x, body.y, Cartesian(magnitude * velX, magnitude * velY), colour));
    }

    /** `#coneAttack`. */
    method ConeAttack(n: nat)
      requires Valid()
      modifies body`delayedTimeoutIDs, body.timers
      ensures Valid()
      ensures body.Scheduled(ConeSeries(n), n as real, true)
    {
      body.ScheduleSeries(ConeSeries(n), n as real, true);
    }

    /** `#fireConeRow`: `rowLen` projectiles 0.01 half-turns apart, centred on the player. */
    method FireConeRow(rowLen: nat, colour: Colour)
      modifies body.projectiles
      ensures body.projectiles.items == old(body.projectiles.items) + ConeRowShots(body.x, body.y, AimAtPlayer(), rowLen, colour)
    {
      var aim := Toward(body.x, body.y, player.x, player.y);
      var offset := 0.01;
      var startAngle := -(offset * (if rowLen % 2 == 0 then rowLen as real * 0.5 - 0.5 else (rowLen as real * 0.5).Floor as real));
      var magnitude := 1.5;
      ghost var before := body.projectiles.items;
      ghost var row := ConeRowShots(body.x, body.y, aim, rowLen, colour);
      for i := 0 to rowLen
        invariant body.projectiles.items == before + row[..i]
      {
        body.projectiles.Push(Shot(body.x, body.y, Along(magnitude, Angle(aim, offset * i as real + startAngle)), colour));
        assert row[..i + 1] == row[..i] + [row[i]];
      }
      assert row[..rowLen] == row;
    }

    /** `#overtakeWaveAttack`, available only to turrets built in hard mode. */
    method OvertakeWaveAttack(n: nat)
      requires Valid()
      modifies body`delayedTimeoutIDs, body.timers
      ensures Valid()
      ensures body.Scheduled(WaveSeries(n), (3 * n) as real, true)
    {
      body.ScheduleSeries(WaveSeries(n), (3 * n) as real, true);
    }

    /** `#overtakeWave`: five projectiles fanned around the aim, turned by the wave's offset. */
    method OvertakeWave(magnitude: real, globalOffset: real, colour: Colour)
      modifies body.projectiles
      ensures body.projectiles.items == old(body.projectiles.items) + WaveShots(body.x, body.y, AimAtPlayer(), magnitude, globalOffset, colour)
    {
      var aim := Toward(body.x, body.y, player.x, player.y);
      var innerOffset := 0.1;
      var startAngle := -(innerOffset * 2.5);
      ghost var before := body.projectiles.items;
      ghost var wave := WaveShots(body.x, body.y, aim, magnitude, globalOffset, colour);
      for i := 0 to 5
        invariant body.projectiles.items == before + wave[..i]
      {
        var curAngle := startAngle + innerOffset * i as real + globalOffset;
        body.projectiles.Push(Shot(body.x, body.y, Along(magnitude, Angle(aim, curAngle)), colour));
        assert wave[..i + 1] == wave[..i] + [wave[i]];
      }
      assert wave[..5] == wave;
    }

    /** `#overtakeArrowAttack`: the aim is taken once, when the attack starts;
        the `2w` handles are all recorded and none is trimmed. */
    method OvertakeArrowAttack(w: nat)
      requires Valid()
      modifies body`delayedTimeoutIDs, body.timers
      ensures Valid()
      ensures body.Appended(ArrowSeries(old(AimAtPlayer()), w))
      ensures |body.delayedTimeoutIDs| == |old(body.delayedTimeoutIDs)| + 2 * w
    {
      var aim := Toward(body.x, body.y, player.x, player.y);
      ghost var series := ArrowSeries(aim, w);
      ghost var start := body.timers.next;
      ghost var ids := body.delayedTimeoutIDs;
      ghost var base := body.timers.pending;
      assert series[..0] == [];
      var angle := ArrowLeftWing(aim, w, series, start, ids, base);
      ArrowRightWing(aim, w, angle + 0.05 * 2.0, series, start, ids, base);
      assert body.Valid();
      assert aim == old(AimAtPlayer());
      assert body.Appended(series);
    }

    /** The first loop of `#overtakeArrowAttack`: shots `0 .. w-1` of the left
        wing, each one step of 0.05 half-turns above the one before. Returns
        the angle the loop leaves behind. */
    method ArrowLeftWing(aim: Aim, w: nat, ghost series: seq<Timer<Event>>,
                         ghost start: nat, ghost ids: seq<nat>, ghost base: map<nat, Timer<Event>>) returns (angle: real)
      requires series == ArrowSeries(aim, w)
      requires body.timers.Valid() && body.timers.next == start
      requires body.timers.pending == base + Issue(start, series[..0])
      requires body.delayedTimeoutIDs == ids + Handles(start, 0)
      modifies body`delayedTimeoutIDs, body.timers
      ensures body.timers.Valid() && body.timers.next == start + w
      ensures body.timers.pending == base + Issue(start, series[..w])
      ensures body.delayedTimeoutIDs == ids + Handles(start, w)
      ensures angle == 0.05 * (w as real - (w + 1) as real)
    {
      var angleIncrement := 0.05;
      angle := -((w + 1) as real * angleIncrement);
      for i := 0 to w
        invariant body.timers.Valid() && body.timers.next == start + i
        invariant body.timers.pending == base + Issue(start, series[..i])
        invariant body.delayedTimeoutIDs == ids + Handles(start, i)
        invariant angle == 0.05 * (i as real - (w + 1) as real)
      {
        ArrowLeftShot(aim, w, i, angle, series, start, ids, base);
        angle := angle + angleIncrement;
      }
    }

    /** The body of the first loop: `setTimeout` of shot `i` of the left wing
        at `angle`, its handle recorded. */
    method ArrowLeftShot(aim: Aim, w: nat, i: nat, angle: real, ghost series: seq<Timer<Event>>,
                         ghost start: nat, ghost ids: seq<nat>, ghost base: map<nat, Timer<Event>>)
      requires series == ArrowSeries(aim, w) && i < w && angle == 0.05 * (i as real - (w + 1) as real)
      requires body.timers.Valid() && body.timers.next == start + i
      requires body.timers.pending == base + Issue(start, series[..i])
      requires body.delayedTimeoutIDs == ids + Handles(start, i)
      modifies body`delayedTimeoutIDs, body.timers
      ensures body.timers.Valid() && body.timers.next == start + i + 1
      ensures body.timers.pending == base + Issue(start, series[..i + 1])
      ensures body.delayedTimeoutIDs == ids + Handles(start, i + 1)
    {
      var t := Timer(Event.OvertakeArrow(Angle(aim, angle), (i + 1) as real, ShotColour(i, w)), i * 100);
      ArrowLeft(aim, w, i, angle);
      body.ScheduleStep(t, 0.0, false, series, i, start, ids, base);
    }

    /** The second loop of `#overtakeArrowAttack`: shots `w-1` down to `0` of
        the right wing, starting two steps past where the left wing stopped. */
    method ArrowRightWing(aim: Aim, w: nat, angle0: real, ghost series: seq<Timer<Event>>,
                          ghost start: nat, ghost ids: seq<nat>, ghost base: map<nat, Timer<Event>>)
      requires series == ArrowSeries(aim, w) && angle0 == 0.05
      requires body.timers.Valid() && body.timers.next == start + w
      requires body.timers.pending == base + Issue(start, series[..w])
      requires body.delayedTimeoutIDs == ids + Handles(start, w)
      modifies body`delayedTimeoutIDs, body.timers
      ensures body.timers.Valid() && body.timers.next == start + |series|
      ensures body.timers.pending == base + Issue(start, series)
      ensures body.delayedTimeoutIDs == ids + Handles(start, |series|)
    {
      var angleIncrement := 0.05;
      var angle := angle0;
      for p := w to 2 * w
        invariant body.timers.Valid() && body.timers.next == start + p
        invariant body.timers.pending == base + Issue(start, series[..p])
        invariant body.delayedTimeoutIDs == ids + Handles(start, p)
        invariant angle == 0.05 * (p - w + 1) as real
      {
        ArrowRightShot(aim, w, p, angle, series, start, ids, base);
        angle := angle + angleIncrement;
      }
      assert series[..2 * w] == series;
    }

    /** The body of the second loop: `setTimeout` of shot `i = 2w - 1 - p` of
        the right wing at `angle`, its handle recorded as the `p`-th of the attack. */
    method ArrowRightShot(aim: Aim, w: nat, p: nat, angle: real, ghost series: seq<Timer<Event>>,
                          ghost start: nat, ghost ids: seq<nat>, ghost base: map<nat, Timer<Event>>)
      requires series == ArrowSeries(aim, w) && w <= p < 2 * w && angle == 0.05 * (p - w + 1) as real
      requires body.timers.Valid() && body.timers.next == start + p
      requires body.timers.pending == base + Issue(start, series[..p])
      requires body.delayedTimeoutIDs == ids + Handles(start, p)
      modifies body`delayedTimeoutIDs, body.timers
      ensures body.timers.Valid() && body.timers.next == start + p + 1
      ensures body.timers.pending == base + Issue(start, series[..p + 1])
      ensures body.delayedTimeoutIDs == ids + Handles(start, p + 1)
    {
      var i := 2 * w - 1 - p;
      var t := Timer(Event.OvertakeArrow(Angle(aim, angle), (i + 1) as real, ShotColour(i, w)), i * 100);
      ArrowRight(aim, w, i, angle);
      body.ScheduleStep(t, 0.0, false, series, p, start, ids, base);
    }

    /** `#overtakeArrow`: one projectile at the angle and magnitude the attack bound. */
    method OvertakeArrow(angle: Angle, magnitude: real, colour: Colour)
      modifies body.projectiles
      ensures body.projectiles.items == old(body.projectiles.items) + [Shot(body.x, body.y, Along(magnitude, angle), colour)]
    {
      body.projectiles.Push(Shot(body.x, body.y, Along(magnitude, angle), colour));
    }

    /** `#shotgunAttack`. */
    method ShotgunAttack(n: nat)
      requires Valid()
      modifies body`delayedTimeoutIDs, body.timers
      ensures Valid()
      ensures body.Scheduled(ShotgunSeries(n), n as real, true)
    {
      body.ScheduleSeries(ShotgunSeries(n), n as real, true);
    }

    /** `#shotgunWave`: `n` projectiles of speed 1.5 scattered by at most 1/32
        half-turn around the aim; `jitter` holds the two draws of each. */
    method ShotgunWave(colour: Colour, n: nat, jitter: seq<(real, real)>)
      requires |jitter| == n && Jitter(jitter)
      modifies body.projectiles
      ensures body.projectiles.items == old(body.projectiles.items) + ShotgunShots(body.x, body.y, AimAtPlayer(), jitter, colour)
    {
      var aim := Toward(body.x, body.y, player.x, player.y);
      var magnitude := 1.5;
      ghost var before := body.projectiles.items;
      ghost var wave := ShotgunShots(body.x, body.y, aim, jitter, colour);
      for i := 0 to n
        invariant body.projectiles.items == before + wave[..i]
      {
        body.projectiles.Push(Shot(body.x, body.y,
          Polar(magnitude, Angle(aim, (jitter[i].0 - 0.5) * 0.0625), Angle(aim, (jitter[i].1 - 0.5) * 0.0625)), colour));
        assert wave[..i + 1] == wave[..i] + [wave[i]];
      }
      assert wave[..n] == wave;
    }

    /** `#fireRandomAimedAttack`: the attack `rMethod` picks, always one this turret has. */
    method FireRandomAimedAttack(n: nat, rMethod: real) returns (pattern: AimedPattern)
      requires Valid() && 0.0 <= rMethod < 1.0
      modifies body`delayedTimeoutIDs, body.timers
      ensures Valid()
      ensures pattern == fireAimedMethods[PickIndex(rMethod, |fireAimedMethods|)]
      ensures pattern == Waves ==> fireAimedMethods == AimedMethods(true)
      ensures pattern == Line ==> body.Scheduled(LineSeries(n), n as real, true)
      ensures pattern == Cone ==> body.Scheduled(ConeSeries(n), n as real, true)
      ensures pattern == Shotgun ==> body.Scheduled(ShotgunSeries(n), n as real, true)
      ensures pattern == Arrow ==> body.Appended(ArrowSeries(old(AimAtPlayer()), n))
      ensures pattern == Waves ==> body.Scheduled(WaveSeries(n), (3 * n) as real, true)
    {
      pattern := fireAimedMethods[PickIndex(rMethod, |fireAimedMethods|)];
      match pattern
      case Line => LineAttack(n);
      case Cone => ConeAttack(n);
      case Shotgun => ShotgunAttack(n);
      case Arrow => OvertakeArrowAttack(n);
      case Waves => OvertakeWaveAttack(n);
    }

    /** `debounceFire`: replaces the pending dispatch with a new one 20 ms out. */
    method DebounceFire()
      requires Valid()
      modifies body`fireTimeoutID, body.timers
      ensures Valid()
      ensures body.fireTimeoutID == Some(old(body.timers.next))
      ensures body.timers.next == old(body.timers.next) + 1
      ensures body.timers.pending
           == (old(body.timers.pending) - HandleSet(old(body.fireTimeoutID)))[old(body.timers.next) := Timer(AimedDispatch, DebounceDelay)]
    {
      body.Debounce(AimedDispatch);
    }
  }
}
