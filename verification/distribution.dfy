/**
 * Splitting item prices among funds: each priced item is divided among its
 * type's funds by percentage, rounded to cents, and any additional amount
 * goes to the "Other" fund; an order's item splits are then reconciled.
 */
module Distribution {
  import opened Wrappers
  import opened Errors
  import opened Money
  import opened FeeSchedule
  import opened Pricing
  import opened Allocations

  /** The fund that receives every additional (per-page) amount. */
  const OtherFund: string := "Other"

  /** `a` is `x` rounded to cents: a whole number of cents at most half a cent away. */
  predicate RoundedFrom(a: real, x: real)
  {
    IsCents(a) && x - 0.005 <= a <= x + 0.005
  }

  /** The fund shares of the item's type; an unrecognised type has none. */
  function SharesOf(s: Schedule, item: PricedItem): seq<Share>
    requires Recognised(item.itemType) ==> item.itemType in s
  {
    if Recognised(item.itemType) then s[item.itemType].distributions else []
  }

  /**
   * The amount a recognised item splits among its funds: a recording's
   * price less its additional amount, a birth certificate's whole price.
   */
  function SplitBase(item: PricedItem): real
    requires WellPriced(item)
  {
    match item.price
    case None => 0.0
    case Some(p) => if item.itemType == RealPropertyRecording then p - item.additionalPriceAmount else p
  }

  /** One allocation per share, in order, named after the share; `SplitFeeRounded` gives the amounts. */
  function SplitFee(base: real, shares: seq<Share>): (r: seq<Allocation>)
    ensures |r| == |shares|
    ensures forall i :: 0 <= i < |shares| ==> r[i].name == shares[i].name
  {
    seq(|shares|, i requires 0 <= i < |shares| => SplitShare(base, shares[i]))
  }

  /** Each fund gets its percentage of `base`, rounded to cents. */
  lemma SplitFeeRounded(base: real, shares: seq<Share>)
    ensures forall i :: 0 <= i < |shares| ==> RoundedFrom(SplitFee(base, shares)[i].amount, base * shares[i].percentage)
  {
    var r := SplitFee(base, shares);
    forall i | 0 <= i < |shares|
      ensures RoundedFrom(r[i].amount, base * shares[i].percentage)
    {
      assert r[i] == SplitShare(base, shares[i]);
    }
  }

  /** One fund's part of `base`: its percentage of it, rounded to cents. */
  function SplitShare(base: real, share: Share): (a: Allocation)
    ensures a.name == share.name
    ensures RoundedFrom(a.amount, base * share.percentage)
  {
    Allocation(share.name, Round2(base * share.percentage))
  }

  /**
   * `calculateDistritionPerItem`: the item's type's funds get their share
   * of the split base, in schedule order, and a non-zero additional amount
   * is appended for the "Other" fund. A recognised type missing from the
   * schedule is the source's type error.
   */
  function ItemDistribution(s: Schedule, item: PricedItem): (r: Result<seq<Allocation>, EngineError>)
    requires WellPriced(item)
    ensures r.Failure? <==> Recognised(item.itemType) && item.itemType !in s
    ensures r.Failure? ==> r.error == MissingScheduleEntry(item.itemType)
    ensures r.Success? ==> |r.value| == |SharesOf(s, item)| + (if item.additionalPriceAmount != 0.0 then 1 else 0)
    ensures r.Success? ==> r.value[..|SharesOf(s, item)|] == SplitFee(SplitBase(item), SharesOf(s, item))
    ensures r.Success? && item.additionalPriceAmount != 0.0 ==> r.value[|r.value| - 1] == Allocation(OtherFund, item.additionalPriceAmount)
  {
    var t := item.itemType;
    if Recognised(t) && t !in s then Failure(MissingScheduleEntry(t))
    else
      var split :=
        if t == RealPropertyRecording then
          var orderFee := if item.additionalPriceAmount != 0.0 then item.price.value - item.additionalPriceAmount else item.price.value;
          SplitFee(orderFee, s[t].distributions)
        else if t == BirthCertificate then
          SplitFee(item.price.value, s[t].distributions)
        else [];
      Success(if item.additionalPriceAmount != 0.0 then split + [Allocation(OtherFund, item.additionalPriceAmount)] else split)
  }

  /** The schedule has an entry for every recognised type among the items. */
  ghost predicate Covers(s: Schedule, items: seq<PricedItem>)
  {
    forall i :: 0 <= i < |items| ==> Recognised(items[i].itemType) ==> items[i].itemType in s
  }

  /** `ItemDistribution` gives `r` for `item`. */
  ghost predicate SplitsAs(s: Schedule, item: PricedItem, r: Result<seq<Allocation>, EngineError>)
  {
    WellPriced(item) && ItemDistribution(s, item) == r
  }

  /** The per-item splits of a list of items, in order; the first item that cannot be split fails the list. */
  function ItemDistributions(s: Schedule, items: seq<PricedItem>): (r: Result<seq<seq<Allocation>>, EngineError>)
    requires AllWellPriced(items)
    ensures r.Success? <==> Covers(s, items)
    ensures r.Success? ==> |r.value| == |items|
    ensures r.Success? ==> forall i :: 0 <= i < |items| ==> SplitsAs(s, items[i], Success(r.value[i]))
    ensures r.Failure? ==> exists i :: 0 <= i < |items| && SplitsAs(s, items[i], Failure(r.error))
  {
    if |items| == 0 then Success([])
    else
      var p := items[..|items| - 1];
      assert forall i :: 0 <= i < |p| ==> p[i] == items[i];
      var pre :- ItemDistributions(s, p);
      var last :- ItemDistribution(s, items[|items| - 1]);
      SplitsAppend(s, items, pre, last);
      Success(pre + [last])
  }

  lemma SplitsAppend(s: Schedule, items: seq<PricedItem>, pre: seq<seq<Allocation>>, last: seq<Allocation>)
    requires |items| == |pre| + 1
    requires forall i :: 0 <= i < |pre| ==> SplitsAs(s, items[..|pre|][i], Success(pre[i]))
    requires SplitsAs(s, items[|pre|], Success(last))
    ensures forall i :: 0 <= i < |items| ==> SplitsAs(s, items[i], Success((pre + [last])[i]))
  {
    var r := pre + [last];
    forall i | 0 <= i < |items|
      ensures SplitsAs(s, items[i], Success(r[i]))
    {
      if i < |pre| {
        assert items[..|pre|][i] == items[i];
        assert r[i] == pre[i];
      }
    }
  }

  /**
   * `calculatFundDistributions`: reconciles the per-item splits of one
   * order. The order's total fee and additional amount are accepted and
   * not used. An order without items fails, since reconciliation reduces
   * an empty list without a seed.
   */
  function FundDistributions(s: Schedule, items: seq<PricedItem>, totalFee: Option<real>, additionalFee: real)
    : (r: Result<seq<Allocation>, EngineError>)
    requires AllWellPriced(items)
    ensures r.Success? <==> |items| > 0 && Covers(s, items)
    ensures |items| == 0 ==> r == Failure(EmptyReduce)
  {
    var lists :- ItemDistributions(s, items);
    Reconcile(lists)
  }

  /** An order's distribution reconciles the allocations of all its item splits. */
  lemma {:induction false} FundDistributionsGroup(s: Schedule, items: seq<PricedItem>, totalFee: Option<real>, additionalFee: real)
    requires AllWellPriced(items)
    requires |items| > 0 && Covers(s, items)
    ensures Groups(FundDistributions(s, items, totalFee, additionalFee).value, Flatten(ItemDistributions(s, items).value))
  {
  }

  // ---------------------------------------------------------------------
  // Where the money goes
  // ---------------------------------------------------------------------

  /** No fund of a recognised type is itself called "Other". */
  ghost predicate NoOtherShare(s: Schedule)
  {
    forall t :: t in s && Recognised(t) ==> forall i :: 0 <= i < |s[t].distributions| ==> s[t].distributions[i].name != OtherFund
  }

  /** The "Other" fund of one item's split receives exactly the item's additional amount. */
  lemma {:induction false} ItemOtherFund(s: Schedule, item: PricedItem)
    requires WellPriced(item)
    requires ItemDistribution(s, item).Success?
    requires NoOtherShare(s)
    ensures SumFor(ItemDistribution(s, item).value, OtherFund) == item.additionalPriceAmount
  {
    var r := ItemDistribution(s, item).value;
    var n := |SharesOf(s, item)|;
    var split := r[..n];
    assert !Has(split, OtherFund) by {
      forall i | 0 <= i < n
        ensures split[i].name != OtherFund
      {
        assert split[i] == SplitFee(SplitBase(item), SharesOf(s, item))[i];
      }
    }
    SumForAbsent(split, OtherFund);
    if item.additionalPriceAmount != 0.0 {
      assert r == split + [Allocation(OtherFund, item.additionalPriceAmount)];
      SumForAppend(split, Allocation(OtherFund, item.additionalPriceAmount), OtherFund);
    } else {
      assert r == split;
    }
  }

  /** The "Other" fund of an order receives the order's total additional amount. */
  lemma {:induction false} OrderOtherFund(s: Schedule, items: seq<PricedItem>, totalFee: Option<real>, additionalFee: real)
    requires AllWellPriced(items)
    requires |items| > 0 && Covers(s, items)
    requires NoOtherShare(s)
    ensures SumFor(FundDistributions(s, items, totalFee, additionalFee).value, OtherFund) == TotalAdditional(items)
  {
    var lists := ItemDistributions(s, items).value;
    ReconcileSumFor(lists, OtherFund);
    ListsOtherFund(s, items, lists);
  }

  lemma {:induction false} ListsOtherFund(s: Schedule, items: seq<PricedItem>, lists: seq<seq<Allocation>>)
    requires AllWellPriced(items)
    requires NoOtherShare(s)
    requires |lists| == |items|
    requires forall i :: 0 <= i < |items| ==> ItemDistribution(s, items[i]) == Success(lists[i])
    ensures SumForLists(lists, OtherFund) == TotalAdditional(items)
  {
    forall i | 0 <= i < |items|
      ensures SumFor(lists[i], OtherFund) == items[i].additionalPriceAmount
    {
      ItemOtherFund(s, items[i]);
    }
    OtherSumsItems(lists, items);
  }

  /** Lists whose "Other" sums are the items' additional amounts give "Other" the items' total additional amount. */
  lemma {:induction false} OtherSumsItems(lists: seq<seq<Allocation>>, items: seq<PricedItem>)
    requires |lists| == |items|
    requires forall i :: 0 <= i < |items| ==> SumFor(lists[i], OtherFund) == items[i].additionalPriceAmount
    ensures SumForLists(lists, OtherFund) == TotalAdditional(items)
  {
    if |items| > 0 {
      var n := |items| - 1;
      assert forall i :: 0 <= i < n ==> lists[..n][i] == lists[i] && items[..n][i] == items[i];
      OtherSumsItems(lists[..n], items[..n]);
    }
  }

  /** An order's reconciled funds hold exactly the money of its item splits. */
  lemma {:induction false} OrderFundTotal(s: Schedule, items: seq<PricedItem>, totalFee: Option<real>, additionalFee: real)
    requires AllWellPriced(items)
    requires |items| > 0 && Covers(s, items)
    ensures Total(FundDistributions(s, items, totalFee, additionalFee).value) == TotalOfLists(ItemDistributions(s, items).value)
  {
    ReconcileTotal(ItemDistributions(s, items).value);
  }

  /**
   * Rounding each share to cents moves the split's total at most half a
   * cent per share away from the base times the sum of the percentages.
   */
  lemma {:induction false} SplitFeeTotal(base: real, shares: seq<Share>)
    ensures base * SumPercentages(shares) - |shares| as real * 0.005 <= Total(SplitFee(base, shares))
    ensures Total(SplitFee(base, shares)) <= base * SumPercentages(shares) + |shares| as real * 0.005
  {
    SplitFeeNear(base, shares);
    RoundedTotal(SplitFee(base, shares), Scaled(base, shares));
    ScaledSum(base, shares);
  }

  /** Each amount is within half a cent of its target. */
  ghost predicate Near(r: seq<Allocation>, targets: seq<real>)
  {
    && |r| == |targets|
    && forall i :: 0 <= i < |r| ==> targets[i] - 0.005 <= r[i].amount <= targets[i] + 0.005
  }

  lemma {:induction false} SplitFeeNear(base: real, shares: seq<Share>)
    ensures Near(SplitFee(base, shares), Scaled(base, shares))
  {
    var r := SplitFee(base, shares);
    var t := Scaled(base, shares);
    SplitFeeRounded(base, shares);
    forall i | 0 <= i < |r|
      ensures t[i] - 0.005 <= r[i].amount <= t[i] + 0.005
    {
      assert RoundedFrom(r[i].amount, base * shares[i].percentage);
    }
  }

  /** Each share's unrounded part of `base`. */
  function Scaled(base: real, shares: seq<Share>): (r: seq<real>)
    ensures |r| == |shares|
    ensures forall i :: 0 <= i < |shares| ==> r[i] == base * shares[i].percentage
  {
    seq(|shares|, i requires 0 <= i < |shares| => base * shares[i].percentage)
  }

  function SumReals(xs: seq<real>): real
  {
    if |xs| == 0 then 0.0 else SumReals(xs[..|xs| - 1]) + xs[|xs| - 1]
  }

  lemma {:induction false} ScaledSum(base: real, shares: seq<Share>)
    ensures SumReals(Scaled(base, shares)) == base * SumPercentages(shares)
  {
    if |shares| > 0 {
      var n := |shares| - 1;
      var p := shares[..n];
      ScaledPrefix(base, shares);
      ScaledSum(base, p);
      assert SumReals(Scaled(base, shares)) == SumReals(Scaled(base, p)) + base * shares[n].percentage;
      ScaleDistributes(base, SumPercentages(p), shares[n].percentage);
    }
  }

  /** Scaling all but the last share is the scaled list without its last entry. */
  lemma ScaledPrefix(base: real, shares: seq<Share>)
    requires |shares| > 0
    ensures Scaled(base, shares)[..|shares| - 1] == Scaled(base, shares[..|shares| - 1])
  {
    var n := |shares| - 1;
    var p := shares[..n];
    forall i | 0 <= i < n
      ensures Scaled(base, shares)[i] == Scaled(base, p)[i]
    {
      assert p[i] == shares[i];
    }
  }

  /** Amounts each within half a cent of a target total within half a cent per amount of the targets' sum. */
  lemma {:induction false} RoundedTotal(r: seq<Allocation>, targets: seq<real>)
    requires Near(r, targets)
    ensures SumReals(targets) - |r| as real * 0.005 <= Total(r) <= SumReals(targets) + |r| as real * 0.005
  {
    if |r| > 0 {
      var n := |r| - 1;
      RoundedTotal(r[..n], targets[..n]);
    }
  }

  /** When a type's fund amounts add up to its largest fee, its percentages add up to one. */
  lemma {:induction false} NormalisedSumsToOne(dists: seq<RawDistribution>, fees: seq<Fee>)
    requires MaxFee(fees) > 0.0
    requires SumRaw(dists) == MaxFee(fees)
    ensures SumPercentages(FormatDistributions(dists, fees)) == 1.0
  {
    var m := MaxFee(fees);
    var total := SumPercentages(FormatDistributions(dists, fees));
    PercentagesSum(dists, fees);
    UnitFactor(total, m, SumRaw(dists));
  }

  /**
   * A recognised item priced by the pricing rule splits exactly the flat
   * fee of its type among the funds; the per-page part goes to "Other".
   */
  lemma PricedItemSplitsFlatFee(s: Schedule, item: OrderItem)
    requires Recognised(item.itemType)
    requires FeePerItem(s, item).Success?
    ensures WellPriced(FeePerItem(s, item).value)
    ensures SplitBase(FeePerItem(s, item).value) == s[item.itemType].fees[FlatFee]
    ensures ItemDistribution(s, FeePerItem(s, item).value).Success?
  {
  }
}
