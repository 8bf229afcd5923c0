/** Small shared vocabulary: optional values and the tolerance for comparing levels. */
module Prelude {
  datatype Option<+T> = None | Some(value: T)

  /** Two levels closer than this count as equal (`_EPS` in the engine and the reconciler). */
  const EPS: real := 0.000000001

  function Abs(x: real): real { if x < 0.0 then -x else x }

  predicate Near(x: real, y: real) { Abs(x - y) <= EPS }

  function Max0(x: real): real { if x < 0.0 then 0.0 else x }

  function Min(a: nat, b: nat): nat { if a < b then a else b }

  /** Saturating subtraction. */
  function Minus(a: nat, b: nat): nat { if a < b then 0 else a - b }

  /** The source tests an idempotency key for truth: an empty one counts as none. */
  predicate HasKey(key: Option<string>) { key.Some? && key.value != "" }
}
