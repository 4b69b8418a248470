/** A background star (`Star.js`): it falls at its own constant speed and,
    once it has dropped a radius below the bottom edge, re-enters one radius
    above the top at a freshly drawn horizontal position. */
module Stars {
  import opened Common

  class Star {
    const width: real
    const height: real
    var x: real
    var y: real
    var velY: real
    var radius: real

    /** Where a star can be between two frames: anywhere across the canvas,
        at most a radius past the bottom edge and at least a radius above the
        top, with the speed and size its constructor drew. */
    ghost predicate Valid()
      reads this
    {
      && 0.0 <= width && 0.0 <= height
      && 0.0 <= x <= width && (0.0 < width ==> x < width)
      && height * 0.0005 <= velY <= height * 0.001 && (0.0 < height ==> velY < height * 0.001)
      && height * 0.0001 <= radius <= height * 0.001 && (0.0 < height ==> radius < height * 0.001)
      && -radius <= y <= height + radius
    }

    /** `new Star(canvas, ctx)` with the four draws of `Math.random()` in
        order: horizontal position, vertical position, speed, radius. */
    constructor (width0: real, height0: real, rx: real, ry: real, rSpeed: real, rRadius: real)
      requires 0.0 <= width0 && 0.0 <= height0
      requires 0.0 <= rx < 1.0 && 0.0 <= ry < 1.0 && 0.0 <= rSpeed < 1.0 && 0.0 <= rRadius < 1.0
      ensures Valid()
      ensures width == width0 && height == height0
      ensures x == Portion(rx, width0) && y == Portion(ry, height0)
      ensures 0.0 <= x <= width0 && (0.0 < width0 ==> x < width0)
      ensures 0.0 <= y <= height0 && (0.0 < height0 ==> y < height0)
      ensures velY == ScaledRange(height0, rSpeed, 0.0005, 0.0005)
      ensures radius == ScaledRange(height0, rRadius, 0.0009, 0.0001)
    {
      width, height := width0, height0;
      x := Portion(rx, width0);
      y := Portion(ry, height0);
      velY := ScaledRange(height0, rSpeed, 0.0005, 0.0005);
      radius := ScaledRange(height0, rRadius, 0.0009, 0.0001);
    }

    /** One frame: the star falls by `velY`; past the bottom edge by more than
        its radius, it moves to a new position `rx` across the width, one
        radius above the top. Speed and radius never change, and the
        horizontal position changes only on that wrap. */
    method Update(rx: real)
      requires Valid()
      requires 0.0 <= rx < 1.0
      modifies this`x, this`y
      ensures Valid()
      ensures old(y) + velY > height + radius ==> x == Portion(rx, width) && y == -radius
      ensures old(y) + velY <= height + radius ==> x == old(x) && y == old(y) + velY
    {
      y := y + velY;
      if y > height + radius {
        x := Portion(rx, width);
        y := -radius;
      }
    }
  }
}
