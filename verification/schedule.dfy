/**
 * The fee schedule and its normalisation: a raw list of item types, each
 * with named fees and named fund amounts, becomes a lookup keyed by item
 * type whose fund amounts are percentages of that type's largest fee.
 */
module FeeSchedule {
  import opened Money

  /** A raw fee entry `{type, amount}`, e.g. `flat` or `per-page`. */
  datatype Fee = Fee(name: string, amount: real)

  /** A raw fund entry `{name, amount}`: the fund's dollar share of the largest fee. */
  datatype RawDistribution = RawDistribution(name: string, amount: real)

  /** One item type of the raw schedule. */
  datatype RawFeeType = RawFeeType(orderItemType: string, fees: seq<Fee>, distributions: seq<RawDistribution>)

  /** A normalised fund entry: the fund's share as a fraction of the largest fee. */
  datatype Share = Share(name: string, percentage: real)

  /** The normalised entry for one item type. */
  datatype TypeSchedule = TypeSchedule(fees: map<string, real>, distributions: seq<Share>)

  /** The normalised schedule, keyed by item type. */
  type Schedule = map<string, TypeSchedule>

  /** `formatFees`: a table from fee name to amount; a later entry for the same name overwrites an earlier one. */
  function FormatFees(fees: seq<Fee>): (r: map<string, real>)
    ensures r.Keys == set i | 0 <= i < |fees| :: fees[i].name
    ensures forall i :: 0 <= i < |fees| && LastOfName(fees, i) ==> r[fees[i].name] == fees[i].amount
  {
    if |fees| == 0 then map[]
    else
      var n := |fees| - 1;
      var r := FormatFees(fees[..n])[fees[n].name := fees[n].amount];
      FormatFeesStep(fees, FormatFees(fees[..n]), r);
      r
  }

  /** Overwriting the table of all but the last entry with the last entry keeps `FormatFees`'s contract. */
  lemma FormatFeesStep(fees: seq<Fee>, q: map<string, real>, r: map<string, real>)
    requires |fees| > 0
    requires q.Keys == set i | 0 <= i < |fees| - 1 :: fees[i].name
    requires forall i :: 0 <= i < |fees| - 1 && LastOfName(fees[..|fees| - 1], i) ==> q[fees[i].name] == fees[i].amount
    requires r == q[fees[|fees| - 1].name := fees[|fees| - 1].amount]
    ensures r.Keys == set i | 0 <= i < |fees| :: fees[i].name
    ensures forall i :: 0 <= i < |fees| && LastOfName(fees, i) ==> r[fees[i].name] == fees[i].amount
  {
    var n := |fees| - 1;
    var p := fees[..n];
    assert forall i :: 0 <= i < n ==> p[i] == fees[i];
    forall i | 0 <= i < n && LastOfName(fees, i)
      ensures LastOfName(p, i)
    {
    }
  }

  /** Entry `i` is the last one with its name. */
  ghost predicate LastOfName(fees: seq<Fee>, i: int)
    requires 0 <= i < |fees|
  {
    forall j :: i < j < |fees| ==> fees[j].name != fees[i].name
  }

  /** The largest fee amount, folded with `Math.max` from a seed of 0. */
  function MaxFee(fees: seq<Fee>): (m: real)
    ensures m >= 0.0
    ensures forall i :: 0 <= i < |fees| ==> fees[i].amount <= m
  {
    if |fees| == 0 then 0.0
    else
      var p := fees[..|fees| - 1];
      var m := MaxFee(p);
      assert forall i :: 0 <= i < |p| ==> p[i] == fees[i];
      if m >= fees[|fees| - 1].amount then m else fees[|fees| - 1].amount
  }

  /** The largest fee is the seed 0 or one of the fee amounts. */
  lemma {:induction false} MaxFeeAttained(fees: seq<Fee>)
    ensures MaxFee(fees) == 0.0 || exists i :: 0 <= i < |fees| && fees[i].amount == MaxFee(fees)
  {
    if |fees| > 0 {
      var p := fees[..|fees| - 1];
      MaxFeeAttained(p);
      if MaxFee(fees) != fees[|fees| - 1].amount && MaxFee(fees) != 0.0 {
        var i :| 0 <= i < |p| && p[i].amount == MaxFee(p);
        assert fees[i] == p[i];
      }
    }
  }

  /**
   * `formatDistributions`: each fund amount divided by the type's largest
   * fee. The list keeps its length, order and names.
   */
  function FormatDistributions(dists: seq<RawDistribution>, fees: seq<Fee>): (r: seq<Share>)
    requires MaxFee(fees) > 0.0
    ensures |r| == |dists|
    ensures forall i :: 0 <= i < |dists| ==> r[i].name == dists[i].name
  {
    Percentages(dists, MaxFee(fees))
  }

  /** Each normalised percentage times the largest fee is the raw fund amount. */
  lemma FormatDistributionsScale(dists: seq<RawDistribution>, fees: seq<Fee>, i: int)
    requires MaxFee(fees) > 0.0
    requires 0 <= i < |dists|
    ensures FormatDistributions(dists, fees)[i].percentage * MaxFee(fees) == dists[i].amount
  {
    PercentageScale(dists, MaxFee(fees), i);
  }

  /** Each fund amount as a fraction of `m`. */
  function Percentages(dists: seq<RawDistribution>, m: real): (r: seq<Share>)
    requires m > 0.0
    ensures |r| == |dists|
    ensures forall i :: 0 <= i < |dists| ==> r[i].name == dists[i].name
  {
    seq(|dists|, i requires 0 <= i < |dists| => Share(dists[i].name, dists[i].amount / m))
  }

  lemma PercentageScale(dists: seq<RawDistribution>, m: real, i: int)
    requires m > 0.0
    requires 0 <= i < |dists|
    ensures Percentages(dists, m)[i].percentage * m == dists[i].amount
  {
    DivMul(dists[i].amount, m);
  }

  /** Every type of the raw schedule has a positive largest fee, so no percentage divides by zero. */
  ghost predicate NonDegenerate(raw: seq<RawFeeType>)
  {
    forall i :: 0 <= i < |raw| ==> MaxFee(raw[i].fees) > 0.0
  }

  /** Normalises one raw item type. */
  function FormatFeeType(t: RawFeeType): TypeSchedule
    requires MaxFee(t.fees) > 0.0
  {
    TypeSchedule(FormatFees(t.fees), FormatDistributions(t.distributions, t.fees))
  }

  /**
   * `formatFeeTypes`: the lookup keyed by item type. Every raw type gets
   * an entry; when a type occurs twice the later entry wins.
   */
  function FormatFeeTypes(raw: seq<RawFeeType>): (r: Schedule)
    requires NonDegenerate(raw)
    ensures r.Keys == TypesOf(raw)
    ensures forall i :: 0 <= i < |raw| && LastOfType(raw, i) ==> r[raw[i].orderItemType] == FormatFeeType(raw[i])
  {
    if |raw| == 0 then map[]
    else
      var p := raw[..|raw| - 1];
      var r := FormatFeeTypes(p)[raw[|raw| - 1].orderItemType := FormatFeeType(raw[|raw| - 1])];
      FormatFeeTypesStep(raw, FormatFeeTypes(p), r);
      r
  }

  /** One step of `FormatFeeTypes` keeps its two postconditions. */
  lemma {:induction false} FormatFeeTypesStep(raw: seq<RawFeeType>, prev: Schedule, r: Schedule)
    requires |raw| > 0 && NonDegenerate(raw)
    requires NonDegenerate(raw[..|raw| - 1])
    requires prev.Keys == TypesOf(raw[..|raw| - 1])
    requires forall i :: 0 <= i < |raw| - 1 && LastOfType(raw[..|raw| - 1], i) ==> prev[raw[i].orderItemType] == FormatFeeType(raw[i])
    requires r == prev[raw[|raw| - 1].orderItemType := FormatFeeType(raw[|raw| - 1])]
    ensures r.Keys == TypesOf(raw)
    ensures forall i :: 0 <= i < |raw| && LastOfType(raw, i) ==> r[raw[i].orderItemType] == FormatFeeType(raw[i])
  {
    var p := raw[..|raw| - 1];
    var last := raw[|raw| - 1];
    TypesOfAppend(raw);
    assert r.Keys == prev.Keys + {last.orderItemType};
    forall i | 0 <= i < |raw| && LastOfType(raw, i)
      ensures r[raw[i].orderItemType] == FormatFeeType(raw[i])
    {
      if i < |raw| - 1 {
        assert raw[i] == p[i];
        assert LastOfType(p, i);
      }
    }
  }

  lemma {:induction false} TypesOfAppend(raw: seq<RawFeeType>)
    requires |raw| > 0
    ensures TypesOf(raw) == TypesOf(raw[..|raw| - 1]) + {raw[|raw| - 1].orderItemType}
  {
    var p := raw[..|raw| - 1];
    var last := raw[|raw| - 1];
    assert TypesOf(raw) == TypesOf(p) + {last.orderItemType} by {
      forall t | t in TypesOf(raw)
        ensures t in TypesOf(p) + {last.orderItemType}
      {
        var i :| 0 <= i < |raw| && raw[i].orderItemType == t;
        if i < |p| {
          assert p[i] == raw[i];
        }
      }
      forall t | t in TypesOf(p) + {last.orderItemType}
        ensures t in TypesOf(raw)
      {
        if t in TypesOf(p) {
          var i :| 0 <= i < |p| && p[i].orderItemType == t;
          assert raw[i] == p[i];
        } else {
          assert raw[|raw| - 1] == last;
        }
      }
    }
  }

  /** The item types named in a raw schedule. */
  ghost function TypesOf(raw: seq<RawFeeType>): set<string>
  {
    set i | 0 <= i < |raw| :: raw[i].orderItemType
  }

  /** Entry `i` is the last one for its item type. */
  ghost predicate LastOfType(raw: seq<RawFeeType>, i: int)
    requires 0 <= i < |raw|
  {
    forall j :: i < j < |raw| ==> raw[j].orderItemType != raw[i].orderItemType
  }

  // ---------------------------------------------------------------------
  // Percentages and dollar amounts convert back and forth
  // ---------------------------------------------------------------------

  /** Turns percentages back into dollar amounts against a given largest fee. */
  function Denormalize(shares: seq<Share>, m: real): (r: seq<RawDistribution>)
    ensures |r| == |shares|
  {
    seq(|shares|, i requires 0 <= i < |shares| => RawDistribution(shares[i].name, shares[i].percentage * m))
  }

  /** Normalising and then denormalising gives back the raw fund amounts. */
  lemma {:induction false} DenormalizeNormalized(dists: seq<RawDistribution>, fees: seq<Fee>)
    requires MaxFee(fees) > 0.0
    ensures Denormalize(FormatDistributions(dists, fees), MaxFee(fees)) == dists
  {
    var r := Denormalize(FormatDistributions(dists, fees), MaxFee(fees));
    forall i | 0 <= i < |dists|
      ensures r[i] == dists[i]
    {
      FormatDistributionsScale(dists, fees, i);
    }
  }

  /** Denormalising and then normalising gives back the same percentages. */
  lemma {:induction false} NormalizeDenormalized(shares: seq<Share>, fees: seq<Fee>)
    requires MaxFee(fees) > 0.0
    ensures FormatDistributions(Denormalize(shares, MaxFee(fees)), fees) == shares
  {
    var m := MaxFee(fees);
    var d := Denormalize(shares, m);
    var r := Percentages(d, m);
    forall i | 0 <= i < |shares|
      ensures r[i] == shares[i]
    {
      NormalizeDenormalizedAt(shares, m, i);
    }
    assert FormatDistributions(d, fees) == r;
  }

  /** Normalising one scaled share against the same largest fee gives back the share. */
  lemma {:induction false} NormalizeDenormalizedAt(shares: seq<Share>, m: real, i: int)
    requires m > 0.0
    requires 0 <= i < |shares|
    ensures Percentages(Denormalize(shares, m), m)[i] == shares[i]
  {
    var d := Denormalize(shares, m);
    assert d[i] == RawDistribution(shares[i].name, shares[i].percentage * m);
    DivMul(shares[i].percentage, m);
    assert Percentages(d, m)[i] == Share(d[i].name, d[i].amount / m);
  }

  function SumPercentages(shares: seq<Share>): real
  {
    if |shares| == 0 then 0.0 else SumPercentages(shares[..|shares| - 1]) + shares[|shares| - 1].percentage
  }

  function SumRaw(dists: seq<RawDistribution>): real
  {
    if |dists| == 0 then 0.0 else SumRaw(dists[..|dists| - 1]) + dists[|dists| - 1].amount
  }

  /**
   * The percentages of a type add up to its total fund amount divided by
   * its largest fee; so they add up to 1 exactly when the fund amounts add
   * up to the largest fee.
   */
  lemma {:induction false} PercentagesSum(dists: seq<RawDistribution>, fees: seq<Fee>)
    requires MaxFee(fees) > 0.0
    ensures SumPercentages(FormatDistributions(dists, fees)) * MaxFee(fees) == SumRaw(dists)
  {
    assert FormatDistributions(dists, fees) == Percentages(dists, MaxFee(fees));
    PercentagesSumTo(dists, MaxFee(fees));
  }

  lemma {:induction false} PercentagesSumTo(dists: seq<RawDistribution>, m: real)
    requires m > 0.0
    ensures SumPercentages(Percentages(dists, m)) * m == SumRaw(dists)
  {
    if |dists| > 0 {
      var p := dists[..|dists| - 1];
      var r := Percentages(dists, m);
      var q := Percentages(p, m);
      assert r[..|r| - 1] == q;
      PercentagesSumTo(p, m);
      PercentageScale(dists, m, |dists| - 1);
      MulDistributes(SumPercentages(q), r[|r| - 1].percentage, m);
    }
  }
}
