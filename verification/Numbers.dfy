/** Minima, maxima and clamps, as JavaScript, Python and Rust all have them. */
module Numbers {

  function MaxNat(a: nat, b: nat): nat { if a < b then b else a }

  function Min(a: real, b: real): real { if a < b then a else b }
  function Max(a: real, b: real): real { if a < b then b else a }
  function Abs(x: real): real { if x < 0.0 then -x else x }

  function Clamp(v: real, low: real, high: real): real {
    Max(low, Min(high, v))
  }

  function Clamp01(v: real): real {
    Clamp(v, 0.0, 1.0)
  }

  /** Clamping keeps what is in range and moves the rest to the nearer end. */
  lemma ClampIs(v: real, low: real, high: real)
    requires low <= high
    ensures low <= v <= high ==> Clamp(v, low, high) == v
    ensures v < low ==> Clamp(v, low, high) == low
    ensures v > high ==> Clamp(v, low, high) == high
  {
  }
}
