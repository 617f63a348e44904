/** The seven analysis bands and the mean normalised level within each. */
module Bands {
  import opened Wrappers
  import opened Stats

  datatype BandName = SubBass | MidBass | LowMids | Mids | UpperMids | Presence | Brilliance

  /** A half-open frequency interval [low, high) in Hz. */
  datatype Band = Band(low: real, high: real)

  /** The fixed band table. */
  function BandOf(n: BandName): Band
  {
    match n
    case SubBass => Band(20.0, 60.0)
    case MidBass => Band(60.0, 250.0)
    case LowMids => Band(250.0, 500.0)
    case Mids => Band(500.0, 2000.0)
    case UpperMids => Band(2000.0, 4000.0)
    case Presence => Band(4000.0, 6000.0)
    case Brilliance => Band(6000.0, 12000.0)
  }

  /** The order in which the band table is walked. */
  const BandOrder: seq<BandName> := [SubBass, MidBass, LowMids, Mids, UpperMids, Presence, Brilliance]

  /** The band table as a sequence of intervals, lowest first. */
  function BandTable(): seq<Band>
  {
    seq(|BandOrder|, k requires 0 <= k < |BandOrder| => BandOf(BandOrder[k]))
  }

  /** The sample mask: `low <= f < high`. */
  predicate InBand(f: real, b: Band)
  {
    b.low <= f < b.high
  }

  /** Non-empty intervals, each starting where the previous one ends. */
  predicate Contiguous(bs: seq<Band>)
  {
    (forall k :: 0 <= k < |bs| ==> bs[k].low < bs[k].high) &&
    (forall k :: 0 < k < |bs| ==> bs[k - 1].high == bs[k].low)
  }

  lemma {:induction false} ContiguousAscending(bs: seq<Band>, j: nat, k: nat)
    requires Contiguous(bs)
    requires j < k < |bs|
    ensures bs[j].high <= bs[k].low
    decreases k - j
  {
    if j + 1 < k {
      ContiguousAscending(bs, j + 1, k);
    }
  }

  /** In contiguous bands, no frequency lies in two bands. */
  lemma AtMostOneBand(bs: seq<Band>, f: real, j: nat, k: nat)
    requires Contiguous(bs)
    requires j < |bs| && k < |bs|
    requires InBand(f, bs[j]) && InBand(f, bs[k])
    ensures j == k
  {
    if j < k {
      ContiguousAscending(bs, j, k);
    } else if k < j {
      ContiguousAscending(bs, k, j);
    }
  }

  /** In contiguous bands, every frequency between the lowest edge and the highest edge lies in some band. */
  lemma {:induction false} SomeBand(bs: seq<Band>, f: real) returns (k: nat)
    requires Contiguous(bs) && |bs| > 0
    requires bs[0].low <= f < bs[|bs| - 1].high
    ensures k < |bs| && InBand(f, bs[k])
  {
    if f < bs[0].high {
      k := 0;
    } else {
      var rest := bs[1..];
      assert Contiguous(rest) by {
        assert forall i :: 0 < i < |rest| ==> rest[i - 1] == bs[i];
      }
      var k' := SomeBand(rest, f);
      k := k' + 1;
    }
  }

  lemma BandTableContiguous()
    ensures |BandTable()| == 7
    ensures Contiguous(BandTable())
    ensures BandTable()[0].low == 20.0 && BandTable()[6].high == 12000.0
  {
  }

  /**
   * A frequency in [20, 12000) lies in exactly one band of the table, and a
   * frequency outside it lies in none.
   */
  lemma ExactlyOneBand(f: real)
    ensures 20.0 <= f < 12000.0 ==> exists k :: 0 <= k < 7 && InBand(f, BandTable()[k])
    ensures !(20.0 <= f < 12000.0) ==> forall k :: 0 <= k < 7 ==> !InBand(f, BandTable()[k])
    ensures forall j, k :: 0 <= j < 7 && 0 <= k < 7 && InBand(f, BandTable()[j]) && InBand(f, BandTable()[k]) ==> j == k
  {
    BandTableContiguous();
    var bs := BandTable();
    if 20.0 <= f < 12000.0 {
      var k := SomeBand(bs, f);
    } else {
      forall k | 0 <= k < 7 ensures !InBand(f, bs[k]) {
        if k > 0 { ContiguousAscending(bs, 0, k); }
        if k < 6 { ContiguousAscending(bs, k, 6); }
      }
    }
    forall j, k | 0 <= j < 7 && 0 <= k < 7 && InBand(f, bs[j]) && InBand(f, bs[k]) ensures j == k {
      AtMostOneBand(bs, f, j, k);
    }
  }

  /** A frequency on the edge shared by two neighbouring bands is counted only in the higher one. */
  lemma SharedEdgeInHigherBand(k: nat)
    requires 0 < k < 7
    ensures InBand(BandTable()[k].low, BandTable()[k])
    ensures forall j :: 0 <= j < 7 && j != k ==> !InBand(BandTable()[k].low, BandTable()[j])
  {
    ExactlyOneBand(BandTable()[k].low);
  }

  /** The normalised levels of the samples whose frequency lies in `b`, in sample order. */
  function BandLevels(freqs: seq<real>, level: seq<real>, b: Band): seq<real>
    requires |freqs| == |level|
  {
    if |freqs| == 0 then []
    else (if InBand(freqs[0], b) then [level[0]] else []) + BandLevels(freqs[1..], level[1..], b)
  }

  /** A level is selected exactly when some sample in the band carries it. */
  lemma {:induction false} BandLevelsMember(freqs: seq<real>, level: seq<real>, b: Band, x: real)
    requires |freqs| == |level|
    ensures x in BandLevels(freqs, level, b) <==>
            exists i :: 0 <= i < |freqs| && InBand(freqs[i], b) && level[i] == x
  {
    if |freqs| > 0 {
      BandLevelsMember(freqs[1..], level[1..], b, x);
      if x in BandLevels(freqs[1..], level[1..], b) {
        var i :| 0 <= i < |freqs| - 1 && InBand(freqs[1..][i], b) && level[1..][i] == x;
        assert InBand(freqs[i + 1], b) && level[i + 1] == x;
      }
      if exists i :: 0 <= i < |freqs| && InBand(freqs[i], b) && level[i] == x {
        var i :| 0 <= i < |freqs| && InBand(freqs[i], b) && level[i] == x;
        if i > 0 {
          assert InBand(freqs[1..][i - 1], b) && level[1..][i - 1] == x;
        }
      }
    }
  }

  /** 1 for each sample inside `b`, 0 for each sample outside it. */
  function MaskWeights(freqs: seq<real>, b: Band): seq<real>
  {
    seq(|freqs|, i requires 0 <= i < |freqs| => if InBand(freqs[i], b) then 1.0 else 0.0)
  }

  /** Each sample's level where it lies inside `b`, 0 where it does not. */
  function MaskedLevels(freqs: seq<real>, level: seq<real>, b: Band): seq<real>
    requires |freqs| == |level|
  {
    seq(|freqs|, i requires 0 <= i < |freqs| => if InBand(freqs[i], b) then level[i] else 0.0)
  }

  /**
   * The selected levels are as many as the in-band samples, repeats
   * included, and add up to the sum of the in-band levels.
   */
  lemma {:induction false} BandLevelsCountAndSum(freqs: seq<real>, level: seq<real>, b: Band)
    requires |freqs| == |level|
    ensures |BandLevels(freqs, level, b)| as real == Sum(MaskWeights(freqs, b))
    ensures Sum(BandLevels(freqs, level, b)) == Sum(MaskedLevels(freqs, level, b))
  {
    if |freqs| > 0 {
      BandLevelsCountAndSum(freqs[1..], level[1..], b);
      assert MaskWeights(freqs, b)[1..] == MaskWeights(freqs[1..], b);
      assert MaskedLevels(freqs, level, b)[1..] == MaskedLevels(freqs[1..], level[1..], b);
      SumAppend(if InBand(freqs[0], b) then [level[0]] else [], BandLevels(freqs[1..], level[1..], b));
      assert Sum([level[0]]) == level[0] by {
        assert [level[0]][1..] == [];
      }
    }
  }

  /**
   * Mean normalised level of the samples in `b`, or None when no sample
   * frequency lies in `b`.
   */
  function BandMean(freqs: seq<real>, level: seq<real>, b: Band): (r: Option<real>)
    requires |freqs| == |level|
    ensures r.None? <==> forall i :: 0 <= i < |freqs| ==> !InBand(freqs[i], b)
    ensures r.Some? ==> exists i :: 0 <= i < |freqs| && InBand(freqs[i], b) && level[i] <= r.value
    ensures r.Some? ==> exists j :: 0 <= j < |freqs| && InBand(freqs[j], b) && r.value <= level[j]
    ensures r.Some? ==> r.value * Sum(MaskWeights(freqs, b)) == Sum(MaskedLevels(freqs, level, b))
  {
    var xs := BandLevels(freqs, level, b);
    BandLevelsCountAndSum(freqs, level, b);
    if |xs| == 0 then
      NoBandLevels(freqs, level, b);
      None
    else
      BandMeanBracketed(freqs, level, b);
      Some(Mean(xs))
  }

  lemma NoBandLevels(freqs: seq<real>, level: seq<real>, b: Band)
    requires |freqs| == |level|
    requires |BandLevels(freqs, level, b)| == 0
    ensures forall i :: 0 <= i < |freqs| ==> !InBand(freqs[i], b)
  {
    forall i | 0 <= i < |freqs| ensures !InBand(freqs[i], b) {
      BandLevelsMember(freqs, level, b, level[i]);
    }
  }

  lemma BandMeanBracketed(freqs: seq<real>, level: seq<real>, b: Band)
    requires |freqs| == |level|
    requires |BandLevels(freqs, level, b)| > 0
    ensures exists i :: 0 <= i < |freqs| && InBand(freqs[i], b) && level[i] <= Mean(BandLevels(freqs, level, b))
    ensures exists j :: 0 <= j < |freqs| && InBand(freqs[j], b) && Mean(BandLevels(freqs, level, b)) <= level[j]
  {
    var xs := BandLevels(freqs, level, b);
    MeanWithinSamples(xs);
    var p :| 0 <= p < |xs| && xs[p] <= Mean(xs);
    var q :| 0 <= q < |xs| && Mean(xs) <= xs[q];
    BandLevelsMember(freqs, level, b, xs[p]);
    BandLevelsMember(freqs, level, b, xs[q]);
  }

  /** Fills the band table entry by entry, in table order. */
  method ComputeBandMeans(freqs: seq<real>, level: seq<real>) returns (means: map<BandName, Option<real>>)
    requires |freqs| == |level|
    ensures forall n :: n in means
    ensures forall n :: n in means ==> means[n] == BandMean(freqs, level, BandOf(n))
  {
    means := map[];
    var k := 0;
    while k < |BandOrder|
      invariant 0 <= k <= |BandOrder|
      invariant forall n :: n in means <==> n in BandOrder[..k]
      invariant forall n :: n in means ==> means[n] == BandMean(freqs, level, BandOf(n))
    {
      var name := BandOrder[k];
      means := means[name := BandMean(freqs, level, BandOf(name))];
      k := k + 1;
    }
    assert BandOrder[..k] == BandOrder;
    forall n: BandName ensures n in means {
      EveryBandOrdered(n);
    }
  }

  lemma EveryBandOrdered(n: BandName)
    ensures n in BandOrder
  {
    match n
    case SubBass => assert BandOrder[0] == n;
    case MidBass => assert BandOrder[1] == n;
    case LowMids => assert BandOrder[2] == n;
    case Mids => assert BandOrder[3] == n;
    case UpperMids => assert BandOrder[4] == n;
    case Presence => assert BandOrder[5] == n;
    case Brilliance => assert BandOrder[6] == n;
  }
}
