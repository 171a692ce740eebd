/** Small helpers shared by every module: an optional value and real min/max. */
module Common {

  /** A value that may be absent (TypeScript's `T | null` / `T | undefined`). */
  datatype Option<+T> = None | Some(value: T)

  /** `Math.min` on two reals. */
  function Min(a: real, b: real): real { if a <= b then a else b }

  /** `Math.max` on two reals. */
  function Max(a: real, b: real): real { if a >= b then a else b }

  /** `Math.abs` on a real. */
  function Abs(a: real): real { if a < 0.0 then -a else a }
}
