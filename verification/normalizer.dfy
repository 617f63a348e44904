/** Mean removal applied to the level column before any band is measured. */
module Normalizer {
  import opened Stats

  /**
   * Subtracts the mean level from every sample. An empty curve stays
   * empty: the vectorised subtraction has no element to act on.
   */
  function Normalize(spl: seq<real>): (r: seq<real>)
    ensures |r| == |spl|
    ensures |spl| > 0 ==> forall i :: 0 <= i < |spl| ==> r[i] == spl[i] - Mean(spl)
  {
    if |spl| == 0 then [] else Offset(spl, Mean(spl))
  }

  /** The normalised curve is zero-mean: its levels sum to zero. */
  lemma NormalizeSumsToZero(spl: seq<real>)
    requires |spl| > 0
    ensures Sum(Normalize(spl)) == 0.0
    ensures Mean(Normalize(spl)) == 0.0
  {
    SumOffset(spl, Mean(spl));
    var n := |spl| as real;
    assert n * Mean(spl) == Sum(spl);
  }

  /** Raising or lowering the whole curve by a constant leaves the normalised curve unchanged. */
  lemma NormalizeShiftInvariant(spl: seq<real>, c: real)
    ensures Normalize(Offset(spl, c)) == Normalize(spl)
  {
    if |spl| > 0 {
      MeanOffset(spl, c);
      assert forall i :: 0 <= i < |spl| ==> Normalize(Offset(spl, c))[i] == Normalize(spl)[i];
    }
  }

  /** A flat curve normalises to all zeros. */
  lemma NormalizeFlat(spl: seq<real>, c: real)
    requires forall i :: 0 <= i < |spl| ==> spl[i] == c
    ensures forall i :: 0 <= i < |spl| ==> Normalize(spl)[i] == 0.0
  {
    if |spl| > 0 {
      var zero := Offset(spl, c);
      assert forall i :: 0 <= i < |spl| ==> zero[i] == 0.0;
      MeanOffset(spl, c);
      assert Mean(spl) == Mean(zero) + c;
      MeanWithinSamples(zero);
    }
  }
}
