/**
 * The two pieces of runtime arithmetic the agent relies on: Unity's
 * `Mathf.Clamp` and the C# explicit conversion from a floating-point value
 * to `int`, which truncates toward zero.
 */
module Numeric {

  /** `Mathf.Clamp(value, min, max)`: below `min` gives `min`, above `max` gives `max`. */
  function Clamp(value: real, min: real, max: real): (r: real)
    ensures min <= max ==> min <= r <= max
    ensures min <= value <= max ==> r == value
    ensures value < min ==> r == min
    ensures min <= value && max < value ==> r == max
  {
    if value < min then min
    else if value > max then max
    else value
  }

  /** The C# cast `(int)x`: the integer part of `x`, rounding toward zero. */
  function TruncateToInt(x: real): (i: int)
    ensures 0.0 <= x ==> 0 <= i && i as real <= x < i as real + 1.0
    ensures x < 0.0 ==> i <= 0 && i as real - 1.0 < x <= i as real
  {
    if x >= 0.0 then x.Floor else -((-x).Floor)
  }
}
