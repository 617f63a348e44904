/** The four sound-signature labels and the threshold cascade that picks one. */
module Classifier {
  import opened Wrappers

  /** The output vocabulary; U-shape is deliberately not a signature. */
  datatype Label = Neutral | Bright | VShape | Warm

  /** Folder names of the four classes, in the order they are created. */
  const Classes: seq<string> := ["Neutral", "Bright", "V-shape", "Warm"]

  /** Emphasis in dB that a region must reach over Mid to count. */
  const Threshold: real := 3.0

  /** The folder name a signature is filed under. */
  function ClassName(l: Label): (name: string)
    ensures name in Classes
  {
    match l
    case Neutral => "Neutral"
    case Bright => "Bright"
    case VShape => "V-shape"
    case Warm => "Warm"
  }

  /** Distinct labels are filed in distinct folders, and every folder belongs to a signature. */
  lemma ClassNamesMatchClasses()
    ensures forall l, m :: ClassName(l) == ClassName(m) ==> l == m
    ensures forall k :: 0 <= k < |Classes| ==> exists l :: ClassName(l) == Classes[k]
  {
    assert ClassName(Neutral) == Classes[0];
    assert ClassName(Bright) == Classes[1];
    assert ClassName(VShape) == Classes[2];
    assert ClassName(Warm) == Classes[3];
  }

  /**
   * The partition of the (bass difference, treble difference) plane by the
   * two threshold lines: which of the two differences reach the threshold.
   */
  function SignatureOf(bassDiff: real, trebleDiff: real, threshold: real): Label
  {
    match (bassDiff >= threshold, trebleDiff >= threshold)
    case (true, true) => VShape
    case (false, true) => Bright
    case (true, false) => Warm
    case (false, false) => Neutral
  }

  /** The signature of three region levels: Neutral when any region has no data. */
  function RegionLabel(bass: Option<real>, mid: Option<real>, treble: Option<real>, threshold: real): Label
  {
    if bass.Some? && mid.Some? && treble.Some? then
      SignatureOf(bass.value - mid.value, treble.value - mid.value, threshold)
    else
      Neutral
  }

  /**
   * Each signature owns exactly one quadrant of the plane of differences, so
   * the quadrants cover it without overlap.
   */
  lemma SignaturePartition(bassDiff: real, trebleDiff: real, threshold: real)
    ensures SignatureOf(bassDiff, trebleDiff, threshold) == VShape <==> bassDiff >= threshold && trebleDiff >= threshold
    ensures SignatureOf(bassDiff, trebleDiff, threshold) == Bright <==> trebleDiff >= threshold && bassDiff < threshold
    ensures SignatureOf(bassDiff, trebleDiff, threshold) == Warm <==> bassDiff >= threshold && trebleDiff < threshold
    ensures SignatureOf(bassDiff, trebleDiff, threshold) == Neutral <==> bassDiff < threshold && trebleDiff < threshold
  {
  }

  /**
   * The first-match cascade after a Neutral default. When a region is
   * missing no difference is computed.
   */
  method ClassifyRegions(bass: Option<real>, mid: Option<real>, treble: Option<real>, threshold: real)
    returns (signature: Label)
    ensures signature == RegionLabel(bass, mid, treble, threshold)
    ensures bass.None? || mid.None? || treble.None? ==> signature == Neutral
    ensures bass.Some? && mid.Some? && treble.Some? ==>
      var bassDiff, trebleDiff := bass.value - mid.value, treble.value - mid.value;
      (signature == VShape <==> bassDiff >= threshold && trebleDiff >= threshold) &&
      (signature == Bright <==> trebleDiff >= threshold && bassDiff < threshold) &&
      (signature == Warm <==> bassDiff >= threshold && trebleDiff < threshold) &&
      (signature == Neutral <==> bassDiff < threshold && trebleDiff < threshold)
  {
    signature := Neutral;
    if bass.Some? && mid.Some? && treble.Some? {
      var bassDiff := bass.value - mid.value;
      var trebleDiff := treble.value - mid.value;
      if bassDiff >= threshold && trebleDiff >= threshold {
        signature := VShape;
      } else if trebleDiff >= threshold && bassDiff < threshold {
        signature := Bright;
      } else if bassDiff >= threshold && trebleDiff < threshold {
        signature := Warm;
      } else {
        signature := Neutral;
      }
    }
  }

  /** Worked examples of the cascade at the default threshold. */
  method ClassifyExamples()
  {
    var a := ClassifyRegions(Some(5.0), Some(0.0), Some(5.0), Threshold);
    assert a == VShape;
    var b := ClassifyRegions(Some(0.0), Some(0.0), Some(6.0), Threshold);
    assert b == Bright;
    var c := ClassifyRegions(Some(4.0), Some(0.0), Some(1.0), Threshold);
    assert c == Warm;
    var d := ClassifyRegions(Some(1.0), Some(0.0), Some(1.0), Threshold);
    assert d == Neutral;
    var e := ClassifyRegions(Some(9.0), Some(0.0), None, Threshold);
    assert e == Neutral;
  }
}
