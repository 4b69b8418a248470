/** Two runs of a radial turret on a fresh page, each from construction on,
    that show how the timer bookkeeping of `Turret.js` behaves over several
    calls. */
module Scenarios {
  import opened Common
  import opened Timers
  import opened Projectiles
  import opened Turrets
  import opened RadialTurrets

  /** Two `debounceFire` calls in a row: the second cancels the dispatch the
      first scheduled, so only the second dispatch is pending, 20 ms out. */
  method DebounceKeepsOnlyLast() returns (first: nat, second: nat, pending: map<nat, Timer<Event>>)
    ensures first != second
    ensures pending == map[second := Timer(RadialDispatch, 20)]
  {
    var timers := new Scheduler<Event>();
    var shots := new SharedList<Shot>();
    var turret := new RadialTurret(800.0, 600.0, timers, shots, false, 0.5, 0.5, 0.5, 0.5);
    turret.DebounceFire();
    first := turret.body.fireTimeoutID.value;
    turret.DebounceFire();
    second := turret.body.fireTimeoutID.value;
    pending := timers.pending;
  }

  /** A flower attack with `numRadialProjectiles = 1` and the draw 0 makes
      2.5 rings: the loop schedules three timers (handles 1, 2, 3) but the
      trim keeps two handles, dropping handle 1. `stopFiring` then cancels
      handles 2 and 3 only: the first ring still runs after the turret has
      stopped. */
  method EvictedHandleStaysPending() returns (evicted: nat, recordedBeforeStop: bool, pendingAfterStop: bool)
    ensures evicted == 1
    ensures !recordedBeforeStop && pendingAfterStop
  {
    var timers := new Scheduler<Event>();
    var shots := new SharedList<Shot>();
    var turret := new RadialTurret(800.0, 600.0, timers, shots, false, 0.5, 0.5, 0.5, 0.5);
    assert PickIndex(0.0, 3) == 0;
    assert FlowerCount(1, 0.0) == 2.5;
    assert Iterations(2.5) == 3;
    turret.FireFlowerRings("red", 1, 0.0);
    assert Handles(1, 3) == [1, 2, 3];
    assert turret.body.delayedTimeoutIDs == [2, 3];
    assert 1 in timers.pending;
    evicted := 1;
    recordedBeforeStop := evicted in turret.body.delayedTimeoutIDs;
    turret.body.StopFiring();
    pendingAfterStop := evicted in timers.pending;
  }
}
