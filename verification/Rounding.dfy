/** Rounding to two decimals, as `Number(value.toFixed(2))` does on exact values: nearest hundredth,
    ties away from zero. */
module Rounding {

  function Round2(x: real): real
  {
    if x >= 0.0 then (x * 100.0 + 0.5).Floor as real / 100.0
    else -((-x * 100.0 + 0.5).Floor as real / 100.0)
  }

  lemma Round2Close(x: real)
    ensures -0.005 <= Round2(x) - x <= 0.005
    ensures x >= 0.0 ==> Round2(x) >= 0.0
  {
    var y := if x >= 0.0 then x * 100.0 + 0.5 else -x * 100.0 + 0.5;
    assert y.Floor as real <= y < y.Floor as real + 1.0;
  }

  /** A rounded value is a whole number of hundredths, ties go away from zero, and signs do not matter. */
  lemma Round2Nearest(x: real)
    ensures Hundredths(Round2(x))
    ensures Round2(-x) == -Round2(x)
    ensures x >= 0.0 ==> -0.005 < Round2(x) - x <= 0.005
  {
    var y := if x >= 0.0 then x * 100.0 + 0.5 else -x * 100.0 + 0.5;
    assert y.Floor as real <= y < y.Floor as real + 1.0;
    var n := if x >= 0.0 then y.Floor else -y.Floor;
    assert Round2(x) == n as real / 100.0;
    assert Round2(x) * 100.0 == n as real;
  }

  /** Whole hundredths, and nothing smaller. */
  predicate Hundredths(x: real)
  {
    (x * 100.0).Floor as real == x * 100.0
  }

  /** Rounding leaves exactly those values alone. */
  lemma Round2Fixes(x: real)
    ensures Round2(x) == x <==> Hundredths(x)
  {
    Round2Nearest(x);
    if Hundredths(x) {
      var n := (x * 100.0).Floor;
      assert (n as real + 0.5).Floor == n && (-n as real + 0.5).Floor == -n;
      assert x * 100.0 == n as real;
      if x >= 0.0 { assert Round2(x) == n as real / 100.0; } else { assert Round2(x) == -(-n as real / 100.0); }
    }
  }
}
