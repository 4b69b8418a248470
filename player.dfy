/** The player's avatar (`Player.js`): a position set from outside, a radius
    that follows the canvas height, and `fire`, which adds a pair of upward
    shots to the shared player-projectile collection unless the game is paused.
    The player keeps no canvas size of its own: the code reads `this.canvas`
    on every call, so each operation takes the canvas's size at that moment. */
module Players {
  import opened Common
  import opened Projectiles

  class Player {
    var x: real
    var y: real
    var radius: real
    /** The handle of the recurring fire timer; `startFireInterval` is not modelled. */
    var fireIntervalID: Option<nat>
    /** `gameObjects.playerProjectiles`. */
    const playerProjectiles: SharedList<Projectile>

    /** `new Player(canvas, ctx, gameObjects)` on a canvas `canvasHeight` high. */
    constructor (canvasHeight: real, shots: SharedList<Projectile>)
      ensures playerProjectiles == shots
      ensures x == 0.0 && y == 0.0
      ensures radius == canvasHeight * 0.01
      ensures fireIntervalID == None
    {
      playerProjectiles := shots;
      x, y := 0.0, 0.0;
      radius := canvasHeight * 0.01;
      fireIntervalID := None;
    }

    /** Recomputes the radius from the canvas's current height `canvasHeight`:
        after a resize the avatar is as large as a player made on the new
        canvas, whatever its size was before. */
    method Resize(canvasHeight: real)
      modifies this`radius
      ensures radius == canvasHeight * 0.01
    {
      radius := canvasHeight * 0.01;
    }

    /** Two shots straight up, from the left and right edge of the avatar, in
        that order, scaled for the canvas's current size; while paused nothing
        is added. Existing shots are kept. */
    method Fire(paused: bool, canvasWidth: real, canvasHeight: real)
      modifies playerProjectiles
      ensures paused ==> playerProjectiles.items == old(playerProjectiles.items)
      ensures !paused ==> |playerProjectiles.items| == |old(playerProjectiles.items)| + 2
      ensures !paused ==> playerProjectiles.items[..|old(playerProjectiles.items)|] == old(playerProjectiles.items)
      ensures !paused ==>
        var n := |old(playerProjectiles.items)|;
        var left, right := playerProjectiles.items[n], playerProjectiles.items[n + 1];
        && fresh(left) && fresh(right) && left != right
        && left.x == x - radius && right.x == x + radius
        && left.y == y && right.y == y
        && left.velX == 0.0 && right.velX == 0.0
        && left.velY == -3.0 * SpeedScale(canvasWidth, canvasHeight) && right.velY == -3.0 * SpeedScale(canvasWidth, canvasHeight)
        && left.colour == right.colour == Some(Named("magenta"))
    {
      if !paused {
        var left := new Projectile.PlayerShot(canvasWidth, canvasHeight, x - radius, y, 0.0, -3.0);
        var right := new Projectile.PlayerShot(canvasWidth, canvasHeight, x + radius, y, 0.0, -3.0);
        playerProjectiles.Push(left);
        playerProjectiles.Push(right);
      }
    }
  }
}
