/** One frequency-response curve, from its two columns to its sound-signature label. */
module Pipeline {
  import opened Wrappers
  import opened Stats
  import opened Normalizer
  import opened Bands
  import opened Regions
  import opened Classifier

  /** The three macro-region levels; each may have no data. */
  datatype RegionLevels = RegionLevels(bass: Option<real>, mid: Option<real>, treble: Option<real>)

  /** The mean normalised level of one band of the curve. */
  function CurveBandMean(freqs: seq<real>, spl: seq<real>, n: BandName): Option<real>
    requires |freqs| == |spl|
  {
    BandMean(freqs, Normalize(spl), BandOf(n))
  }

  /** Bass, Mid and Treble of the curve. */
  function CurveRegions(freqs: seq<real>, spl: seq<real>): RegionLevels
    requires |freqs| == |spl|
  {
    RegionLevels(
      CombinePair(CurveBandMean(freqs, spl, SubBass), CurveBandMean(freqs, spl, MidBass)),
      CombineMid(CurveBandMean(freqs, spl, LowMids), CurveBandMean(freqs, spl, Mids), CurveBandMean(freqs, spl, UpperMids)),
      CombinePair(CurveBandMean(freqs, spl, Presence), CurveBandMean(freqs, spl, Brilliance)))
  }

  /** The label the curve is filed under. */
  function CurveLabel(freqs: seq<real>, spl: seq<real>): Label
    requires |freqs| == |spl|
  {
    var r := CurveRegions(freqs, spl);
    RegionLabel(r.bass, r.mid, r.treble, Threshold)
  }

  /**
   * Processes one curve: normalises it, fills the band table, combines the
   * regions and runs the cascade. Returns the label and the normalised
   * curve that is plotted.
   */
  method ClassifyCurve(freqs: seq<real>, spl: seq<real>) returns (signature: Label, norm: seq<real>)
    requires |freqs| == |spl|
    ensures |norm| == |spl|
    ensures |spl| > 0 ==> Sum(norm) == 0.0
    ensures norm == Normalize(spl)
    ensures signature == CurveLabel(freqs, spl)
  {
    norm := Normalize(spl);
    if |spl| > 0 {
      NormalizeSumsToZero(spl);
    }
    var means := ComputeBandMeans(freqs, norm);
    var bass := CombinePair(means[SubBass], means[MidBass]);
    var mid := CombineMid(means[LowMids], means[Mids], means[UpperMids]);
    var treble := CombinePair(means[Presence], means[Brilliance]);
    signature := ClassifyRegions(bass, mid, treble, Threshold);
  }

  /** Raising or lowering the whole curve by a constant does not change its label. */
  lemma ShiftKeepsLabel(freqs: seq<real>, spl: seq<real>, c: real)
    requires |freqs| == |spl|
    ensures CurveLabel(freqs, Offset(spl, c)) == CurveLabel(freqs, spl)
  {
    NormalizeShiftInvariant(spl, c);
  }

  /** The level is zero or absent. */
  predicate ZeroOrNone(o: Option<real>)
  {
    o.None? || o == Some(0.0)
  }

  lemma FlatBandMean(freqs: seq<real>, spl: seq<real>, c: real, n: BandName)
    requires |freqs| == |spl|
    requires forall i :: 0 <= i < |spl| ==> spl[i] == c
    ensures ZeroOrNone(CurveBandMean(freqs, spl, n))
  {
    NormalizeFlat(spl, c);
  }

  /**
   * A flat curve (including the empty one) is Neutral: every band and
   * region level is zero or absent, and zero differences stay below the
   * threshold.
   */
  lemma FlatCurveIsNeutral(freqs: seq<real>, spl: seq<real>, c: real)
    requires |freqs| == |spl|
    requires forall i :: 0 <= i < |spl| ==> spl[i] == c
    ensures CurveLabel(freqs, spl) == Neutral
  {
    forall n: BandName ensures ZeroOrNone(CurveBandMean(freqs, spl, n)) {
      FlatBandMean(freqs, spl, c, n);
    }
    var r := CurveRegions(freqs, spl);
    PairZeroOrNone(CurveBandMean(freqs, spl, SubBass), CurveBandMean(freqs, spl, MidBass));
    MidZeroOrNone(CurveBandMean(freqs, spl, LowMids), CurveBandMean(freqs, spl, Mids), CurveBandMean(freqs, spl, UpperMids));
    PairZeroOrNone(CurveBandMean(freqs, spl, Presence), CurveBandMean(freqs, spl, Brilliance));
    ZeroRegionsAreNeutral(r);
  }

  lemma PairZeroOrNone(a: Option<real>, b: Option<real>)
    requires ZeroOrNone(a) && ZeroOrNone(b)
    ensures ZeroOrNone(CombinePair(a, b))
  {
  }

  lemma MidZeroOrNone(a: Option<real>, b: Option<real>, c: Option<real>)
    requires ZeroOrNone(a) && ZeroOrNone(b) && ZeroOrNone(c)
    ensures ZeroOrNone(CombineMid(a, b, c))
  {
    var r := CombineMid(a, b, c);
    if r.Some? {
      var w := Weight(a) + Weight(b) + Weight(c);
      assert w > 0.0;
      assert r.value * w == 0.0;
    }
  }

  lemma ZeroRegionsAreNeutral(r: RegionLevels)
    requires ZeroOrNone(r.bass) && ZeroOrNone(r.mid) && ZeroOrNone(r.treble)
    ensures RegionLabel(r.bass, r.mid, r.treble, Threshold) == Neutral
  {
  }

  /** A curve with no sample in [4000, 12000) Hz has no Treble and is therefore Neutral. */
  lemma NoTrebleDataIsNeutral(freqs: seq<real>, spl: seq<real>)
    requires |freqs| == |spl|
    requires forall i :: 0 <= i < |freqs| ==> freqs[i] < 4000.0 || 12000.0 <= freqs[i]
    ensures CurveRegions(freqs, spl).treble.None?
    ensures CurveLabel(freqs, spl) == Neutral
  {
  }

  /**
   * A curve that stops short of the brilliance band still has a Treble:
   * the presence band alone.
   */
  lemma TrebleFallsBackToPresence(freqs: seq<real>, spl: seq<real>)
    requires |freqs| == |spl|
    requires forall i :: 0 <= i < |freqs| ==> freqs[i] < 6000.0
    ensures CurveRegions(freqs, spl).treble == CurveBandMean(freqs, spl, Presence)
  {
  }
}
