/** Sums and arithmetic means of sequences of levels, with exact reals. */
module Stats {

  /** Sum of the elements, folded from the front. */
  function Sum(s: seq<real>): real
  {
    if |s| == 0 then 0.0 else s[0] + Sum(s[1..])
  }

  /** Arithmetic mean of a non-empty sequence. */
  function Mean(s: seq<real>): real
    requires |s| > 0
  {
    Sum(s) / (|s| as real)
  }

  lemma {:induction false} SumAppend(s: seq<real>, t: seq<real>)
    ensures Sum(s + t) == Sum(s) + Sum(t)
  {
    if |s| == 0 {
      assert s + t == t;
    } else {
      assert (s + t)[1..] == s[1..] + t;
      SumAppend(s[1..], t);
    }
  }

  /** The same sequence with `c` subtracted from every element. */
  function Offset(s: seq<real>, c: real): seq<real>
  {
    seq(|s|, i requires 0 <= i < |s| => s[i] - c)
  }

  lemma {:induction false} SumOffset(s: seq<real>, c: real)
    ensures Sum(Offset(s, c)) == Sum(s) - (|s| as real) * c
  {
    if |s| > 0 {
      assert Offset(s, c)[1..] == Offset(s[1..], c);
      SumOffset(s[1..], c);
    }
  }

  /** Subtracting a constant from every element subtracts it from the mean. */
  lemma MeanOffset(s: seq<real>, c: real)
    requires |s| > 0
    ensures Mean(Offset(s, c)) == Mean(s) - c
  {
    SumOffset(s, c);
    var n := |s| as real;
    calc {
      Mean(Offset(s, c));
      (Sum(s) - n * c) / n;
      Sum(s) / n - c;
    }
  }

  lemma {:induction false} SumAbove(s: seq<real>, c: real)
    requires |s| > 0
    requires forall i :: 0 <= i < |s| ==> c < s[i]
    ensures (|s| as real) * c < Sum(s)
  {
    if |s| > 1 {
      SumAbove(s[1..], c);
      assert (|s| as real) * c == c + ((|s| - 1) as real) * c;
    }
  }

  lemma {:induction false} SumBelow(s: seq<real>, c: real)
    requires |s| > 0
    requires forall i :: 0 <= i < |s| ==> s[i] < c
    ensures Sum(s) < (|s| as real) * c
  {
    if |s| > 1 {
      SumBelow(s[1..], c);
      assert (|s| as real) * c == c + ((|s| - 1) as real) * c;
    }
  }

  /** The mean of a non-empty sequence lies between its smallest and largest element. */
  lemma MeanWithinSamples(s: seq<real>)
    requires |s| > 0
    ensures exists i :: 0 <= i < |s| && s[i] <= Mean(s)
    ensures exists j :: 0 <= j < |s| && Mean(s) <= s[j]
  {
    var n := |s| as real;
    assert n * Mean(s) == Sum(s);
    if forall i :: 0 <= i < |s| ==> Mean(s) < s[i] {
      SumAbove(s, Mean(s));
      assert false;
    }
    if forall j :: 0 <= j < |s| ==> s[j] < Mean(s) {
      SumBelow(s, Mean(s));
      assert false;
    }
  }
}
