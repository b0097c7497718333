// A few facts about products of reals that the solver needs one at a time.
module Reals {

  function Max(a: real, b: real): real { if a < b then b else a }

  function Abs(x: real): real { if x < 0.0 then -x else x }

  lemma MulMono(x: real, y: real, z: real)
    requires x <= y && z >= 0.0
    ensures x * z <= y * z
  {
    assert (y - x) * z >= 0.0;
  }

  lemma QuotientBetween(lo: real, num: real, hi: real, den: real)
    requires den > 0.0 && lo * den <= num <= hi * den
    ensures lo <= num / den <= hi
  {
    var q := num / den;
    assert q * den == num;
    if q < lo { StrictMono(q, lo, den); }
    if q > hi { StrictMono(hi, q, den); }
  }

  lemma StrictMono(x: real, y: real, z: real)
    requires x < y && z > 0.0
    ensures x * z < y * z
  {
    assert (y - x) * z > 0.0;
  }
}
