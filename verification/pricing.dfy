/**
 * Per-item pricing and per-order fee totals. The item types the engine
 * prices are a closed set of two; any other type passes through unpriced.
 */
module Pricing {
  import opened Wrappers
  import opened Errors
  import opened FeeSchedule

  const RealPropertyRecording: string := "Real Property Recording"
  const BirthCertificate: string := "Birth Certificate"
  const FlatFee: string := "flat"
  const PerPageFee: string := "per-page"

  /** An order item as it arrives: its type and, optionally, a page count. */
  datatype OrderItem = OrderItem(itemType: string, pages: Option<int>)

  /** A priced item; `price` is `None` (undefined) for a type the engine does not price. */
  datatype PricedItem = PricedItem(itemType: string, price: Option<real>, additionalPriceAmount: real)

  /** The two item types with a pricing rule. */
  predicate Recognised(itemType: string)
  {
    itemType == RealPropertyRecording || itemType == BirthCertificate
  }

  /** A recognised item carries a price, as every item the pricing rule returns does. */
  predicate WellPriced(item: PricedItem)
  {
    Recognised(item.itemType) ==> item.price.Some?
  }

  /** Every item of the list carries a price if its type is recognised. */
  ghost predicate AllWellPriced(items: seq<PricedItem>)
  {
    forall i :: 0 <= i < |items| ==> WellPriced(items[i])
  }

  /** Pages charged beyond the first: only recordings with more than one page have any. */
  function ExtraPages(item: OrderItem): nat
  {
    if item.itemType == RealPropertyRecording && item.pages.Some? && item.pages.value > 1
    then item.pages.value - 1
    else 0
  }

  /** The schedule holds every fee the pricing rule for `item` reads. */
  predicate CanPrice(s: Schedule, item: OrderItem)
  {
    Recognised(item.itemType) ==>
      && item.itemType in s
      && FlatFee in s[item.itemType].fees
      && (ExtraPages(item) > 0 ==> PerPageFee in s[item.itemType].fees)
  }

  /**
   * `calculateFeePerItem`. A recording costs the flat fee plus the per-page
   * fee for every page after the first, and that per-page part is its
   * additional amount; a birth certificate costs the flat fee; any other
   * type is left unpriced with no additional amount.
   */
  function FeePerItem(s: Schedule, item: OrderItem): (r: Result<PricedItem, EngineError>)
    ensures r.Success? <==> CanPrice(s, item)
    ensures Recognised(item.itemType) && item.itemType !in s ==> r == Failure(MissingScheduleEntry(item.itemType))
    ensures r.Success? ==> r.value.itemType == item.itemType
    ensures r.Success? ==> (r.value.price.Some? <==> Recognised(item.itemType))
    ensures r.Success? && !Recognised(item.itemType) ==> r.value.additionalPriceAmount == 0.0
    ensures r.Success? && Recognised(item.itemType) ==>
      r.value.price == Some(s[item.itemType].fees[FlatFee] + r.value.additionalPriceAmount)
    ensures r.Success? && ExtraPages(item) == 0 ==> r.value.additionalPriceAmount == 0.0
  {
    var t := item.itemType;
    if t == RealPropertyRecording then
      if t !in s then Failure(MissingScheduleEntry(t))
      else if FlatFee !in s[t].fees then Failure(MissingFee(t, FlatFee))
      else
        var firstPageFee := s[t].fees[FlatFee];
        if item.pages.Some? && item.pages.value > 1 then
          if PerPageFee !in s[t].fees then Failure(MissingFee(t, PerPageFee))
          else
            var additionalPages := item.pages.value - 1;
            var additionalPriceAmount := additionalPages as real * s[t].fees[PerPageFee];
            Success(PricedItem(t, Some(firstPageFee + additionalPriceAmount), additionalPriceAmount))
        else
          Success(PricedItem(t, Some(firstPageFee), 0.0))
    else if t == BirthCertificate then
      if t !in s then Failure(MissingScheduleEntry(t))
      else if FlatFee !in s[t].fees then Failure(MissingFee(t, FlatFee))
      else Success(PricedItem(t, Some(s[t].fees[FlatFee]), 0.0))
    else
      Success(PricedItem(t, None, 0.0))
  }

  /**
   * A recording with pages beyond the first is charged the per-page fee for
   * each of them, and that charge is its additional amount.
   */
  lemma ExtraPagesCharge(s: Schedule, item: OrderItem)
    requires FeePerItem(s, item).Success?
    requires ExtraPages(item) > 0
    ensures FeePerItem(s, item).value.additionalPriceAmount == ExtraPages(item) as real * s[item.itemType].fees[PerPageFee]
  {
  }

  /** `FeePerItem` gives `r` for `item`. */
  ghost predicate PricesAs(s: Schedule, item: OrderItem, r: Result<PricedItem, EngineError>)
  {
    FeePerItem(s, item) == r
  }

  /** Prices every item in order; the first item that cannot be priced fails the whole list. */
  function PriceItems(s: Schedule, items: seq<OrderItem>): (r: Result<seq<PricedItem>, EngineError>)
    ensures r.Success? <==> forall i :: 0 <= i < |items| ==> CanPrice(s, items[i])
    ensures r.Success? ==> |r.value| == |items|
    ensures r.Success? ==> forall i :: 0 <= i < |items| ==> PricesAs(s, items[i], Success(r.value[i]))
    ensures r.Failure? ==> exists i :: 0 <= i < |items| && PricesAs(s, items[i], Failure(r.error))
  {
    if |items| == 0 then Success([])
    else
      var p := items[..|items| - 1];
      assert forall i :: 0 <= i < |p| ==> p[i] == items[i];
      var pre :- PriceItems(s, p);
      var last :- FeePerItem(s, items[|items| - 1]);
      Success(pre + [last])
  }

  /**
   * `calculateTotal`: the sum of the item prices from a seed of 0. A single
   * unpriced item makes the sum undefined, as `NaN` does in the source.
   */
  function TotalPrice(items: seq<PricedItem>): (r: Option<real>)
    ensures r.Some? <==> forall i :: 0 <= i < |items| ==> items[i].price.Some?
  {
    if |items| == 0 then Some(0.0)
    else
      var p := items[..|items| - 1];
      assert forall i :: 0 <= i < |p| ==> p[i] == items[i];
      match (TotalPrice(p), items[|items| - 1].price)
      case (Some(a), Some(b)) => Some(a + b)
      case _ => None
  }

  /** No item carries an additional amount. */
  ghost predicate NoAdditional(items: seq<PricedItem>)
  {
    forall i :: 0 <= i < |items| ==> items[i].additionalPriceAmount == 0.0
  }

  /** `calculateTotalAdditional`: the sum of the items' additional amounts from a seed of 0. */
  function TotalAdditional(items: seq<PricedItem>): real
  {
    if |items| == 0 then 0.0
    else TotalAdditional(items[..|items| - 1]) + items[|items| - 1].additionalPriceAmount
  }

  /** Items without additional amounts add up to no additional amount. */
  lemma {:induction false} TotalAdditionalZero(items: seq<PricedItem>)
    requires NoAdditional(items)
    ensures TotalAdditional(items) == 0.0
  {
    if |items| > 0 {
      var p := items[..|items| - 1];
      assert forall i :: 0 <= i < |p| ==> p[i] == items[i];
      TotalAdditionalZero(p);
    }
  }

  /** The additional amounts of two lists of items, one after the other, add up. */
  lemma {:induction false} TotalAdditionalConcat(a: seq<PricedItem>, b: seq<PricedItem>)
    ensures TotalAdditional(a + b) == TotalAdditional(a) + TotalAdditional(b)
  {
    if |b| > 0 {
      var b' := b[..|b| - 1];
      assert (a + b)[..|a + b| - 1] == a + b';
      TotalAdditionalConcat(a, b');
    } else {
      assert a + b == a;
    }
  }

  /** The priced items of one order and its two totals. */
  datatype OrderTotals = OrderTotals(orderItems: seq<PricedItem>, totalFees: Option<real>, additionalPriceAmount: real)

  /**
   * `calculaterOrderItems`: prices the items of one order, keeping their
   * number and order, and totals price and additional amount.
   */
  function OrderItemFees(s: Schedule, items: seq<OrderItem>): (r: Result<OrderTotals, EngineError>)
    ensures r.Success? <==> forall i :: 0 <= i < |items| ==> CanPrice(s, items[i])
    ensures r.Success? ==> |r.value.orderItems| == |items|
    ensures r.Success? ==> forall i :: 0 <= i < |items| ==> PricesAs(s, items[i], Success(r.value.orderItems[i]))
  {
    var priced :- PriceItems(s, items);
    Success(OrderTotals(priced, TotalPrice(priced), TotalAdditional(priced)))
  }

  /**
   * The totals of a priced order: every recognised item carries a price;
   * the total fee is defined exactly when every item's type is recognised;
   * the additional amount is the items' additional amounts added up; an
   * order without items totals zero.
   */
  lemma {:induction false} OrderTotalsMeaning(s: Schedule, items: seq<OrderItem>)
    requires OrderItemFees(s, items).Success?
    ensures AllWellPriced(OrderItemFees(s, items).value.orderItems)
    ensures OrderItemFees(s, items).value.totalFees.Some? <==> forall i :: 0 <= i < |items| ==> Recognised(items[i].itemType)
    ensures OrderItemFees(s, items).value.additionalPriceAmount == TotalAdditional(OrderItemFees(s, items).value.orderItems)
    ensures |items| == 0 ==> OrderItemFees(s, items).value.totalFees == Some(0.0)
    ensures |items| == 0 ==> OrderItemFees(s, items).value.additionalPriceAmount == 0.0
  {
    var t := OrderItemFees(s, items).value;
    forall i | 0 <= i < |items|
      ensures WellPriced(t.orderItems[i])
      ensures t.orderItems[i].price.Some? <==> Recognised(items[i].itemType)
    {
      assert PricesAs(s, items[i], Success(t.orderItems[i]));
    }
  }

  // ---------------------------------------------------------------------
  // An order's total is its flat fees plus its additional amount
  // ---------------------------------------------------------------------

  /** Every item has a pricing rule and the schedule holds what that rule reads. */
  ghost predicate AllPriceable(s: Schedule, items: seq<OrderItem>)
  {
    forall i :: 0 <= i < |items| ==> Recognised(items[i].itemType) && CanPrice(s, items[i])
  }

  /** The sum of the flat fees of the items' types. */
  function FlatTotal(s: Schedule, items: seq<OrderItem>): real
    requires AllPriceable(s, items)
  {
    if |items| == 0 then 0.0
    else
      var p := items[..|items| - 1];
      assert forall i :: 0 <= i < |p| ==> p[i] == items[i];
      FlatTotal(s, p) + s[items[|items| - 1].itemType].fees[FlatFee]
  }

  /**
   * When every item is priceable, the order's total fee is the sum of the
   * flat fees plus the order's additional amount.
   */
  lemma {:induction false} TotalFeesSplit(s: Schedule, items: seq<OrderItem>)
    requires AllPriceable(s, items)
    ensures OrderItemFees(s, items).Success?
    ensures OrderItemFees(s, items).value.totalFees
         == Some(FlatTotal(s, items) + OrderItemFees(s, items).value.additionalPriceAmount)
  {
    var priced := PriceItems(s, items).value;
    PricedAtFlat(s, items, priced);
    PricedTotalSplit(s, items, priced);
    assert OrderItemFees(s, items) == Success(OrderTotals(priced, TotalPrice(priced), TotalAdditional(priced)));
  }

  lemma {:induction false} PricedAtFlat(s: Schedule, items: seq<OrderItem>, priced: seq<PricedItem>)
    requires AllPriceable(s, items)
    requires |priced| == |items|
    requires forall i :: 0 <= i < |items| ==> PricesAs(s, items[i], Success(priced[i]))
    ensures forall i :: 0 <= i < |items| ==> FlatPlusAdditional(s, items[i], priced[i])
  {
    forall i | 0 <= i < |items|
      ensures FlatPlusAdditional(s, items[i], priced[i])
    {
      assert PricesAs(s, items[i], Success(priced[i]));
    }
  }

  /** `p` is priced at the flat fee of `item`'s type plus `p`'s additional amount. */
  ghost predicate FlatPlusAdditional(s: Schedule, item: OrderItem, p: PricedItem)
  {
    && item.itemType in s
    && FlatFee in s[item.itemType].fees
    && p.price == Some(s[item.itemType].fees[FlatFee] + p.additionalPriceAmount)
  }

  lemma {:induction false} PricedTotalSplit(s: Schedule, items: seq<OrderItem>, priced: seq<PricedItem>)
    requires AllPriceable(s, items)
    requires |priced| == |items|
    requires forall i :: 0 <= i < |items| ==> FlatPlusAdditional(s, items[i], priced[i])
    ensures TotalPrice(priced) == Some(FlatTotal(s, items) + TotalAdditional(priced))
  {
    if |items| > 0 {
      var n := |items| - 1;
      var p := items[..n];
      var q := priced[..n];
      assert forall i :: 0 <= i < n ==> p[i] == items[i] && q[i] == priced[i];
      PricedTotalSplit(s, p, q);
      assert FlatPlusAdditional(s, items[n], priced[n]);
    }
  }
}
