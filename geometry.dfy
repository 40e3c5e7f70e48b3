/**
 * Axis-aligned rectangles with a top-left origin and y growing downward.
 * Platforms (client/src/lib/game/Platform.ts), coins, power-ups, the goal and
 * the collision sensors are all such rectangles.
 */
module Geometry {
  datatype Rect = Rect(x: real, y: real, width: real, height: real)

  /** `Math.abs` */
  function Abs(v: real): real
  {
    if v < 0.0 then -v else v
  }

  /** `Math.min` */
  function Min(a: real, b: real): real
  {
    if a <= b then a else b
  }

  /** `Math.max` */
  function Max(a: real, b: real): real
  {
    if a >= b then a else b
  }
}
