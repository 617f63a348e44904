/** Merging band means into the Bass, Mid and Treble regions, averaging only the bands that have data. */
module Regions {
  import opened Wrappers
  import opened Stats

  /** The defined operands, in order, with the "no data" ones dropped. */
  function Defined(ops: seq<Option<real>>): seq<real>
  {
    if |ops| == 0 then []
    else (if ops[0].Some? then [ops[0].value] else []) + Defined(ops[1..])
  }

  /** Mean of the defined operands, or None when none is defined. */
  function MeanOfDefined(ops: seq<Option<real>>): Option<real>
  {
    var d := Defined(ops);
    if |d| == 0 then None else Some(Mean(d))
  }

  /** 1 for a defined operand, 0 for a missing one. */
  function Weight(o: Option<real>): real
  {
    if o.Some? then 1.0 else 0.0
  }

  /** The operand's value, or 0 when it is missing. */
  function ValueOr0(o: Option<real>): real
  {
    if o.Some? then o.value else 0.0
  }

  /**
   * The two-band rule used for Bass and Treble: the average of both bands
   * when both have data, the one that has data otherwise.
   */
  function CombinePair(a: Option<real>, b: Option<real>): (r: Option<real>)
    ensures r.None? <==> a.None? && b.None?
    ensures a.Some? && b.None? ==> r == a
    ensures a.None? && b.Some? ==> r == b
    ensures r.Some? ==> r.value * (Weight(a) + Weight(b)) == ValueOr0(a) + ValueOr0(b)
  {
    if a.Some? && b.Some? then Some((a.value + b.value) / 2.0)
    else if a.Some? then a else b
  }

  /** The two-band rule agrees with the general mean-of-defined-operands rule. */
  lemma CombinePairIsMeanOfDefined(a: Option<real>, b: Option<real>)
    ensures CombinePair(a, b) == MeanOfDefined([a, b])
  {
    assert [a, b][1..] == [b];
    assert Defined([b]) == (if b.Some? then [b.value] else []);
    if a.Some? && b.Some? {
      assert Defined([a, b]) == [a.value, b.value];
      SumTwo([a.value, b.value]);
    } else if a.Some? {
      assert Defined([a, b]) == [a.value];
      MeanOne(a.value);
    } else if b.Some? {
      assert Defined([a, b]) == [] + Defined([b]);
      assert Defined([a, b]) == [b.value];
      MeanOne(b.value);
    }
  }

  lemma MeanOne(x: real)
    ensures Mean([x]) == x
  {
    assert Sum([x][1..]) == 0.0;
  }

  /**
   * The Mid rule: the mean of whichever of the three bands have data,
   * undefined only when none has.
   */
  function CombineMid(a: Option<real>, b: Option<real>, c: Option<real>): (r: Option<real>)
    ensures r.None? <==> a.None? && b.None? && c.None?
    ensures r.Some? ==> r.value * (Weight(a) + Weight(b) + Weight(c)) == ValueOr0(a) + ValueOr0(b) + ValueOr0(c)
  {
    MidOperands(a, b, c);
    MeanOfDefined([a, b, c])
  }

  lemma {:induction false} DefinedCountAndSum(ops: seq<Option<real>>)
    ensures |Defined(ops)| as real == Sum(seq(|ops|, i requires 0 <= i < |ops| => Weight(ops[i])))
    ensures Sum(Defined(ops)) == Sum(seq(|ops|, i requires 0 <= i < |ops| => ValueOr0(ops[i])))
  {
    if |ops| > 0 {
      DefinedCountAndSum(ops[1..]);
      var w := seq(|ops|, i requires 0 <= i < |ops| => Weight(ops[i]));
      var v := seq(|ops|, i requires 0 <= i < |ops| => ValueOr0(ops[i]));
      assert w[1..] == seq(|ops[1..]|, i requires 0 <= i < |ops[1..]| => Weight(ops[1..][i]));
      assert v[1..] == seq(|ops[1..]|, i requires 0 <= i < |ops[1..]| => ValueOr0(ops[1..][i]));
      SumAppend(if ops[0].Some? then [ops[0].value] else [], Defined(ops[1..]));
    }
  }


  lemma MidOperands(a: Option<real>, b: Option<real>, c: Option<real>)
    ensures MeanOfDefined([a, b, c]).None? <==> a.None? && b.None? && c.None?
    ensures MeanOfDefined([a, b, c]).Some? ==>
      MeanOfDefined([a, b, c]).value * (Weight(a) + Weight(b) + Weight(c)) == ValueOr0(a) + ValueOr0(b) + ValueOr0(c)
  {
    var ops := [a, b, c];
    DefinedCountAndSum(ops);
    var d := Defined(ops);
    assert |d| as real == Weight(a) + Weight(b) + Weight(c) by {
      SumThree(seq(3, i requires 0 <= i < 3 => Weight(ops[i])));
    }
    assert Sum(d) == ValueOr0(a) + ValueOr0(b) + ValueOr0(c) by {
      SumThree(seq(3, i requires 0 <= i < 3 => ValueOr0(ops[i])));
    }
    if |d| > 0 {
      assert Mean(d) * (|d| as real) == Sum(d);
    }
  }

  lemma SumThree(s: seq<real>)
    requires |s| == 3
    ensures Sum(s) == s[0] + s[1] + s[2]
  {
    assert Sum(s[3..]) == 0.0;
    assert s[2..][1..] == s[3..];
    assert Sum(s[2..]) == s[2];
    assert s[1..][1..] == s[2..];
    assert Sum(s[1..]) == s[1] + s[2];
  }

  lemma SumTwo(s: seq<real>)
    requires |s| == 2
    ensures Sum(s) == s[0] + s[1]
  {
    assert Sum(s[2..]) == 0.0;
    assert s[1..][1..] == s[2..];
    assert Sum(s[1..]) == s[1];
  }
}
