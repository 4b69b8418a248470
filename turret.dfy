/** The state every turret of `Turret.js` shares: position and downward motion
    with wrap-around, the sprite-sheet cycle, and the bookkeeping of timer
    handles (`fireTimeoutID` for the one debounced dispatch, `delayedTimeoutIDs`
    for the sub-events of attack patterns) that `stopFiring` cancels.

    `RadialTurret` and `AimedTurret` (modules RadialTurrets, AimedTurrets)
    hold one of these objects as their `body`, in place of inheritance. */
module Turrets {
  import opened Common
  import opened Timers
  import opened Projectiles

  /** What a scheduled turret callback does when it runs: the `.bind(this, ...)`
      arguments of each `setTimeout` in `Turret.js`. */
  datatype Event =
    | RadialDispatch                                          // #fireRandomRadialAttack
    | AimedDispatch                                           // #fireRandomAimedAttack
    | SpiralRing(colourName: string)                          // #spiralRing
    | FlowerRing(colourName: string)                          // #flowerRing
    | WindmillRing(colourName: string)                        // #windMillRing
    | AimedShot(colour: Colour)                               // #fireAimed
    | ConeRow(rowLen: nat, colour: Colour)                    // #fireConeRow
    | OvertakeWave(magnitude: real, globalOffset: real, colour: Colour)  // #overtakeWave, offset in multiples of pi
    | OvertakeArrow(angle: Angle, magnitude: real, colour: Colour)       // #overtakeArrow
    | ShotgunWave(colour: Colour)                             // #shotgunWave

  /** The delay of the debounced dispatch, in milliseconds. */
  const DebounceDelay: nat := 20

  /** The sprite-sheet frame offsets a turret cycles through. */
  predicate SpriteFrame(offset: int)
  {
    offset == 0 || offset == 200 || offset == 400 || offset == 600
  }

  /** The sprite offset after one `update`: it advances by one 200-pixel frame,
      wrapping at 800, only when the counter (before it grows) is a multiple of 10. */
  function NextSpriteOffset(offset: int, counter: nat): (r: int)
    requires SpriteFrame(offset)
    ensures SpriteFrame(r)
    ensures counter % 10 != 0 ==> r == offset
    ensures counter % 10 == 0 ==> r != offset && (r == offset + 200 || (offset == 600 && r == 0))
  {
    if counter % 10 == 0 then (offset + 200) % 800 else offset
  }

  /** What `delayedTimeoutIDs` holds after a pattern has pushed `count` handles
      starting at `start`, trimming to `limit` after every push (`trimEach`) or
      once after the loop. Trimming after every push never trims when nothing
      was pushed; trimming after the loop always does. */
  function Recorded(ids: seq<nat>, start: nat, count: nat, limit: real, trimEach: bool): (r: seq<nat>)
    requires 0.0 <= limit
    ensures |r| <= |ids| + count
    ensures !(trimEach && count == 0) ==> r == Keep(ids + Handles(start, count), limit.Floor)
    ensures trimEach && count == 0 ==> r == ids
  {
    if trimEach && count == 0 then ids else Keep(ids + Handles(start, count), limit.Floor)
  }

  /** After a trimming pattern that scheduled at least as many timers as it
      keeps, the record holds only handles of that pattern, the newest ones:
      every handle recorded before it has been dropped, oldest first. */
  lemma RecordedOnlyNewest(ids: seq<nat>, start: nat, count: nat, limit: real, trimEach: bool)
    requires 0.0 <= limit && limit.Floor <= count && 0 < count
    ensures Recorded(ids, start, count, limit, trimEach) == Handles(start + count - limit.Floor, limit.Floor)
    ensures forall h :: h in Recorded(ids, start, count, limit, trimEach) ==> start <= h < start + count
  {
    var m := limit.Floor;
    var t := Handles(start, count);
    assert Recorded(ids, start, count, limit, trimEach) == Keep(ids + t, m);
    KeepOnlyNewest(ids, t, m);
    assert t[count - m..] == Handles(start + count - m, m);
  }

  /** One more push followed by a trim extends the record of a trim-each pattern. */
  lemma RecordedPush(ids: seq<nat>, start: nat, count: nat, limit: real)
    requires 0.0 <= limit
    ensures Keep(Recorded(ids, start, count, limit, true) + [start + count], limit.Floor)
         == Recorded(ids, start, count + 1, limit, true)
  {
    var m := limit.Floor;
    var before := ids + Handles(start, count);
    HandlesPush(start, count);
    assert ids + Handles(start, count + 1) == before + [start + count];
    assert Recorded(ids, start, count + 1, limit, true) == Keep(before + [start + count], m);
    if count > 0 {
      assert Recorded(ids, start, count, limit, true) == Keep(before, m);
      KeepPush(before, start + count, m);
    } else {
      assert before == ids;
    }
  }

  class Turret {
    const width: real
    const height: real
    const radius: real
    var x: real
    var y: real
    var velY: real
    var spriteOffset: int
    var spriteCounter: nat
    /** The pending debounced dispatch, `undefined` until the first `debounceFire`. */
    var fireTimeoutID: Option<nat>
    /** The handles of pattern sub-events this turret remembers. */
    var delayedTimeoutIDs: seq<nat>
    /** The page's timer facility, shared by every turret. */
    const timers: Scheduler<Event>
    /** The collection this turret's projectiles are pushed to, shared by its class. */
    const projectiles: SharedList<Shot>

    ghost predicate Valid()
      reads this, timers
    {
      && timers.Valid()
      && 0.0 <= height
      && radius == height * 0.01
      && SpriteFrame(spriteOffset)
    }

    /** `super(canvas, ctx, projectiles)` followed by the subclass's `velY`:
        the turret starts just above the top edge, its whole diameter within
        the width. `rx` is the `Math.random()` draw for `x`. */
    constructor (width0: real, height0: real, timers0: Scheduler<Event>, projectiles0: SharedList<Shot>,
                 rx: real, velY0: real)
      requires 0.0 <= height0 && 0.0 <= rx < 1.0
      requires timers0.Valid()
      ensures Valid()
      ensures width == width0 && height == height0 && timers == timers0 && projectiles == projectiles0
      ensures radius == height0 * 0.01
      ensures x == radius + rx * (width0 - 2.0 * radius) && y == -radius
      ensures width0 > 2.0 * radius ==> radius <= x < width0 - radius
      ensures velY == velY0
      ensures spriteOffset == 0 && spriteCounter == 0
      ensures fireTimeoutID == None && delayedTimeoutIDs == []
    {
      width, height := width0, height0;
      timers, projectiles := timers0, projectiles0;
      var r := height0 * 0.01;
      var span := width0 - 2.0 * r;
      if span > 0.0 {
        ScaleBelow(rx, span);
      }
      radius := r;
      x := r + rx * span;
      y := -r;
      velY := velY0;
      spriteOffset, spriteCounter := 0, 0;
      fireTimeoutID, delayedTimeoutIDs := None, [];
    }

    /** One frame: move down by `velY`, cycle the sprite every 10 frames, and
        once the turret (with its sprite trail) is below the bottom edge put it
        back above the top at a new `x` drawn with `rx`. */
    method Update(rx: real)
      requires Valid() && 0.0 <= rx < 1.0
      modifies this`x, this`y, this`spriteOffset, this`spriteCounter
      ensures Valid()
      ensures velY == old(velY)
      ensures spriteCounter == old(spriteCounter) + 1
      ensures spriteOffset == NextSpriteOffset(old(spriteOffset), old(spriteCounter))
      ensures old(y) + velY > height + radius * 6.0 ==> x == rx * width && y == -radius
      ensures old(y) + velY <= height + radius * 6.0 ==> x == old(x) && y == old(y) + velY
      ensures y <= height + radius * 6.0
    {
      y := y + velY;
      if spriteCounter % 10 == 0 {
        spriteOffset := (spriteOffset + 200) % 800;
      }
      spriteCounter := spriteCounter + 1;
      if y > height + radius * 6.0 {
        x := rx * width;
        y := -radius;
      }
    }

    /** Cancels the pending dispatch and every handle still recorded in
        `delayedTimeoutIDs`; a handle dropped from the record by an earlier trim
        stays pending. The record itself is left as it is. */
    method StopFiring()
      requires Valid()
      modifies timers
      ensures Valid()
      ensures timers.next == old(timers.next)
      ensures timers.pending == old(timers.pending) - HandleSet(fireTimeoutID) - Members(delayedTimeoutIDs)
      ensures forall h :: h in old(timers.pending) && h !in delayedTimeoutIDs && h !in HandleSet(fireTimeoutID) ==>
                h in timers.pending && timers.pending[h] == old(timers.pending)[h]
    {
      timers.ClearTimeout(fireTimeoutID);
      var ids := delayedTimeoutIDs;
      for i := 0 to |ids|
        invariant timers.Valid() && timers.next == old(timers.next)
        invariant timers.pending == old(timers.pending) - HandleSet(fireTimeoutID) - Members(ids[..i])
      {
        timers.ClearTimeout(Some(ids[i]));
        assert ids[..i + 1] == ids[..i] + [ids[i]];
        MembersPush(ids[..i], ids[i]);
      }
      assert ids[..|ids|] == ids;
    }

    /** `debounceFire`: cancels the dispatch still pending, if any, and
        schedules `dispatch` after 20 ms, remembering its handle. */
    method Debounce(dispatch: Event)
      requires Valid()
      modifies this`fireTimeoutID, timers
      ensures Valid()
      ensures fireTimeoutID == Some(old(timers.next))
      ensures timers.next == old(timers.next) + 1
      ensures timers.pending == (old(timers.pending) - HandleSet(old(fireTimeoutID)))[old(timers.next) := Timer(dispatch, DebounceDelay)]
    {
      if fireTimeoutID.Some? {
        timers.ClearTimeout(fireTimeoutID);
      }
      var h := timers.SetTimeout(dispatch, DebounceDelay);
      fireTimeoutID := Some(h);
    }

    /** `while (this.delayedTimeoutIDs.length > limit) this.delayedTimeoutIDs.shift()`. */
    method Trim(limit: real)
      requires 0.0 <= limit
      modifies this`delayedTimeoutIDs
      ensures delayedTimeoutIDs == Keep(old(delayedTimeoutIDs), limit.Floor)
    {
      ghost var ids := delayedTimeoutIDs;
      while |delayedTimeoutIDs| as real > limit
        invariant delayedTimeoutIDs == ids[|ids| - |delayedTimeoutIDs|..]
        invariant |ids| <= limit.Floor ==> delayedTimeoutIDs == ids
        invariant |ids| > limit.Floor ==> limit.Floor <= |delayedTimeoutIDs|
        decreases |delayedTimeoutIDs|
      {
        delayedTimeoutIDs := delayedTimeoutIDs[1..];
      }
    }

    /** `delayedTimeoutIDs.push(h)`, followed by the trim when the pattern trims inside its loop. */
    method PushHandle(h: nat, limit: real, trim: bool)
      requires 0.0 <= limit
      modifies this`delayedTimeoutIDs
      ensures trim ==> delayedTimeoutIDs == Keep(old(delayedTimeoutIDs) + [h], limit.Floor)
      ensures !trim ==> delayedTimeoutIDs == old(delayedTimeoutIDs) + [h]
    {
      delayedTimeoutIDs := delayedTimeoutIDs + [h];
      if trim {
        Trim(limit);
      }
    }

    /** The effect of a pattern that schedules `series` in order: each timer
        under the next fresh handle, each handle recorded, the record trimmed
        to `limit` as `Recorded` says. */
    twostate predicate Scheduled(series: seq<Timer<Event>>, limit: real, trimEach: bool)
      requires 0.0 <= limit
      reads this, timers
    {
      && timers.next == old(timers.next) + |series|
      && timers.pending == old(timers.pending) + Issue(old(timers.next), series)
      && delayedTimeoutIDs == Recorded(old(delayedTimeoutIDs), old(timers.next), |series|, limit, trimEach)
    }

    /** One round of a scheduling loop: `delayedTimeoutIDs.push(setTimeout(...))`
        for the timer `t`, the `i`-th of `series`, followed by the trim when the
        pattern trims inside its loop. */
    method ScheduleStep(t: Timer<Event>, limit: real, trimEach: bool, ghost series: seq<Timer<Event>>, ghost i: nat,
                        ghost start: nat, ghost ids: seq<nat>, ghost base: map<nat, Timer<Event>>)
      requires i < |series| && t == series[i] && 0.0 <= limit
      requires timers.Valid() && timers.next == start + i
      requires timers.pending == base + Issue(start, series[..i])
      requires trimEach ==> delayedTimeoutIDs == Recorded(ids, start, i, limit, true)
      requires !trimEach ==> delayedTimeoutIDs == ids + Handles(start, i)
      modifies this`delayedTimeoutIDs, timers
      ensures timers.Valid() && timers.next == start + i + 1
      ensures timers.pending == base + Issue(start, series[..i + 1])
      ensures trimEach ==> delayedTimeoutIDs == Recorded(ids, start, i + 1, limit, true)
      ensures !trimEach ==> delayedTimeoutIDs == ids + Handles(start, i + 1)
    {
      var h := timers.SetTimeout(t.event, t.delay);
      PendingNext(base, start, series, i);
      ghost var before := delayedTimeoutIDs;
      PushHandle(h, limit, trimEach);
      if trimEach {
        assert delayedTimeoutIDs == Keep(before + [start + i], limit.Floor);
        RecordedPush(ids, start, i, limit);
      } else {
        HandlesPush(start, i);
      }
    }

    /** The effect of a pattern that schedules `series` and records every
        handle without trimming. */
    twostate predicate Appended(series: seq<Timer<Event>>)
      reads this, timers
    {
      && timers.next == old(timers.next) + |series|
      && timers.pending == old(timers.pending) + Issue(old(timers.next), series)
      && delayedTimeoutIDs == old(delayedTimeoutIDs) + Handles(old(timers.next), |series|)
    }

    /** `for (...) ids.push(setTimeout(...))` over `series`, with no trim. */
    method ScheduleAll(series: seq<Timer<Event>>)
      requires Valid()
      modifies this`delayedTimeoutIDs, timers
      ensures Valid()
      ensures Appended(series)
    {
      ghost var start := timers.next;
      ghost var ids := delayedTimeoutIDs;
      ghost var base := timers.pending;
      for i := 0 to |series|
        invariant timers.Valid() && timers.next == start + i
        invariant timers.pending == base + Issue(start, series[..i])
        invariant delayedTimeoutIDs == ids + Handles(start, i)
      {
        ScheduleStep(series[i], 0.0, false, series, i, start, ids, base);
      }
      assert series[..|series|] == series;
    }

    /** The loop shared by the trimming patterns:
        `for (i = 0; i < n; i++) { ids.push(setTimeout(...)); [trim] } [trim]`,
        with the i-th callback and delay given by `series[i]`. */
    method ScheduleSeries(series: seq<Timer<Event>>, limit: real, trimEach: bool)
      requires Valid() && 0.0 <= limit
      modifies this`delayedTimeoutIDs, timers
      ensures Valid()
      ensures Scheduled(series, limit, trimEach)
    {
      if trimEach {
        ghost var start := timers.next;
        ghost var ids := delayedTimeoutIDs;
        ghost var base := timers.pending;
        for i := 0 to |series|
          invariant timers.Valid() && timers.next == start + i
          invariant timers.pending == base + Issue(start, series[..i])
          invariant delayedTimeoutIDs == Recorded(ids, start, i, limit, true)
        {
          ScheduleStep(series[i], limit, true, series, i, start, ids, base);
        }
        assert series[..|series|] == series;
      } else {
        ScheduleAll(series);
        Trim(limit);
      }
    }
  }
}
